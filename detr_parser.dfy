/** The custom output parser for a DETR (detection transformer) network:
    it finds the "boxes" and "logits" output layers, picks for every query the
    first class whose logit is the largest above the class-0 pre-clustering
    threshold, keeps only queries won by class 1 (person), converts their
    normalised centre boxes into pixel boxes and appends them to the
    caller's object list. */
module CustomParserDetr {
  import opened Options
  import opened NvDsInfer

  const BoxesName: string := "boxes"
  const LogitsName: string := "logits"
  /** The only class the parser reports. */
  const PersonClassId: nat := 1
  const DefaultNumClasses: nat := 91
  const DefaultThreshold: real := 0.2

  // ---------------------------------------------------------------------------
  // Layer lookup

  /** The index of the LAST layer called `name` (the lookup loop overwrites its
      pointer on every match), or None when no layer has that name. */
  function LastNamed(layers: seq<LayerInfo>, name: string): (r: Option<nat>)
    ensures r.None? <==> forall k :: 0 <= k < |layers| ==> layers[k].layerName != name
    ensures r.Some? ==> r.value < |layers| && layers[r.value].layerName == name
    ensures r.Some? ==> forall k :: r.value < k < |layers| ==> layers[k].layerName != name
  {
    if |layers| == 0 then None
    else if layers[|layers| - 1].layerName == name then Some(|layers| - 1)
    else LastNamed(layers[..|layers| - 1], name)
  }

  /** The loop that sets the `boxes` and `logits` layer pointers; None stands
      for a pointer left null. */
  method LocateLayers(layers: seq<LayerInfo>) returns (bboxLayer: Option<nat>, logitsLayer: Option<nat>)
    ensures bboxLayer == LastNamed(layers, BoxesName)
    ensures logitsLayer == LastNamed(layers, LogitsName)
  {
    bboxLayer, logitsLayer := None, None;
    for k := 0 to |layers|
      invariant bboxLayer == LastNamed(layers[..k], BoxesName)
      invariant logitsLayer == LastNamed(layers[..k], LogitsName)
    {
      assert layers[..k + 1][..k] == layers[..k];
      if layers[k].layerName == BoxesName {
        bboxLayer := Some(k);
      } else if layers[k].layerName == LogitsName {
        logitsLayer := Some(k);
      }
    }
    assert layers[..|layers|] == layers;
  }

  // ---------------------------------------------------------------------------
  // Arg-max with a floor

  /** The state of the class scan: the winning class (-1 for none) and its score. */
  datatype Best = Best(maxClass: int, maxProb: real)

  /** The scan over `row` that starts from (-1, floor) and takes a class only
      when its logit is strictly greater than the best so far. */
  function BestOf(row: seq<real>, floor: real): Best
  {
    if |row| == 0 then Best(-1, floor)
    else
      var b := BestOf(row[..|row| - 1], floor);
      if row[|row| - 1] > b.maxProb then Best(|row| - 1, row[|row| - 1]) else b
  }

  /** The scan ends with the floor and no class when nothing beats the floor;
      otherwise with a class in range whose logit is above the floor, no
      smaller than any logit of the row, and strictly greater than every
      logit before it. */
  lemma {:induction false} BestOfBounds(row: seq<real>, floor: real)
    ensures var r := BestOf(row, floor);
      && -1 <= r.maxClass < |row|
      && floor <= r.maxProb
      && (forall k :: 0 <= k < |row| ==> row[k] <= r.maxProb)
      && (r.maxClass == -1 ==> r.maxProb == floor)
      && (r.maxClass != -1 ==> row[r.maxClass] == r.maxProb && floor < r.maxProb)
      && (r.maxClass != -1 ==> forall k :: 0 <= k < r.maxClass ==> row[k] < r.maxProb)
  {
    if |row| > 0 {
      var init := row[..|row| - 1];
      BestOfBounds(init, floor);
      assert forall k :: 0 <= k < |init| ==> row[k] == init[k];
    }
  }

  /** Declarative reading of the scan: class `j` is the first index at which
      the row reaches its maximum, and that maximum is above the floor. */
  predicate IsFirstMaxAbove(row: seq<real>, floor: real, j: int)
  {
    0 <= j < |row| && floor < row[j] &&
    (forall k :: 0 <= k < |row| ==> row[k] <= row[j]) &&
    (forall k :: 0 <= k < j ==> row[k] < row[j])
  }

  /** The scan picks class j exactly when j is the first maximum above the floor. */
  lemma BestOfIsFirstMax(row: seq<real>, floor: real, j: nat)
    ensures BestOf(row, floor).maxClass == j <==> IsFirstMaxAbove(row, floor, j)
  {
    var b := BestOf(row, floor);
    BestOfBounds(row, floor);
    if IsFirstMaxAbove(row, floor, j) {
      assert row[j] <= b.maxProb;
      assert b.maxClass != -1;
      assert !(b.maxClass < j) && !(j < b.maxClass);
    }
  }

  /** The inner loop over the classes of one query, reading the row that
      starts at `start` in the flat logits buffer. */
  method ArgMaxWithFloor(logits: seq<real>, start: nat, numClasses: nat, floor: real)
    returns (maxClass: int, maxProb: real)
    requires start + numClasses <= |logits|
    ensures Best(maxClass, maxProb) == BestOf(logits[start..start + numClasses], floor)
  {
    maxClass, maxProb := -1, floor;
    for c := 0 to numClasses
      invariant Best(maxClass, maxProb) == BestOf(logits[start..start + c], floor)
    {
      assert logits[start..start + c + 1][..c] == logits[start..start + c];
      var prob := logits[start + c];
      if prob > maxProb {
        maxProb := prob;
        maxClass := c;
      }
    }
  }

  // ---------------------------------------------------------------------------
  // Decoding the queries

  /** Where row i of the flat Q-by-C logits buffer starts, by repeated
      addition (so that proofs about rows stay linear). */
  function RowStart(i: nat, numClasses: nat): nat
  {
    if i == 0 then 0 else RowStart(i - 1, numClasses) + numClasses
  }

  /** Row i starts at i*C, the offset the parser computes. */
  lemma {:induction false} RowStartIsProduct(i: nat, numClasses: nat)
    ensures RowStart(i, numClasses) == i * numClasses
  {
    if i > 0 {
      RowStartIsProduct(i - 1, numClasses);
      assert (i - 1) * numClasses + numClasses == i * numClasses;
    }
  }

  /** Every row before row n ends no later than row n starts. */
  lemma {:induction false} RowFits(i: nat, n: nat, numClasses: nat)
    requires i < n
    ensures RowStart(i, numClasses) + numClasses <= RowStart(n, numClasses)
  {
    if i + 1 < n {
      RowFits(i, n - 1, numClasses);
    }
  }

  /** The logits of query i. */
  function Row(logits: seq<real>, numClasses: nat, i: nat): seq<real>
    requires RowStart(i, numClasses) + numClasses <= |logits|
  {
    logits[RowStart(i, numClasses)..RowStart(i, numClasses) + numClasses]
  }

  /** The normalised (cx, cy, w, h) box of query i scaled to pixels and turned
      into a (left, top, width, height) detection. */
  function PixelBox(boxes: seq<real>, i: nat, net: NetworkInfo, confidence: real): ObjectDetectionInfo
    requires 4 * i + 4 <= |boxes|
  {
    var cx := boxes[i * 4 + 0] * net.width as real;
    var cy := boxes[i * 4 + 1] * net.height as real;
    var w := boxes[i * 4 + 2] * net.width as real;
    var h := boxes[i * 4 + 3] * net.height as real;
    ObjectDetectionInfo(PersonClassId, cx - w / 2.0, cy - h / 2.0, w, h, confidence)
  }

  /** A centred box (0.5, 0.5, 0.2, 0.4) on a 1280x720 input becomes the
      pixel box left 512, top 216, width 256, height 288. */
  lemma PixelBoxExample(confidence: real)
    ensures PixelBox([0.5, 0.5, 0.2, 0.4], 0, NetworkInfo(1280, 720), confidence)
         == ObjectDetectionInfo(PersonClassId, 512.0, 216.0, 256.0, 288.0, confidence)
  {
  }

  /** What query i contributes: a detection when the scan is won by class 1. */
  function DecodeQuery(boxes: seq<real>, logits: seq<real>, numClasses: nat, floor: real,
                       net: NetworkInfo, i: nat): Option<ObjectDetectionInfo>
    requires RowStart(i, numClasses) + numClasses <= |logits| && 4 * i + 4 <= |boxes|
  {
    var best := BestOf(Row(logits, numClasses, i), floor);
    if best.maxClass == PersonClassId as int then Some(PixelBox(boxes, i, net, best.maxProb)) else None
  }

  /** The contributions of queries 0 .. n-1, in query order. */
  function QueryResults(boxes: seq<real>, logits: seq<real>, numClasses: nat, floor: real,
                        net: NetworkInfo, n: nat): seq<Option<ObjectDetectionInfo>>
    requires RowStart(n, numClasses) <= |logits| && 4 * n <= |boxes|
  {
    if n == 0 then []
    else QueryResults(boxes, logits, numClasses, floor, net, n - 1)
         + [DecodeQuery(boxes, logits, numClasses, floor, net, n - 1)]
  }

  /** The detections of queries 0 .. n-1, in query order. */
  function DecodeQueries(boxes: seq<real>, logits: seq<real>, numClasses: nat, floor: real,
                         net: NetworkInfo, n: nat): seq<ObjectDetectionInfo>
    requires RowStart(n, numClasses) <= |logits| && 4 * n <= |boxes|
  {
    Somes(QueryResults(boxes, logits, numClasses, floor, net, n))
  }

  /** The queries among 0 .. n-1 that yield a detection, in increasing order. */
  function DetectedQueries(boxes: seq<real>, logits: seq<real>, numClasses: nat, floor: real,
                           net: NetworkInfo, n: nat): seq<nat>
    requires RowStart(n, numClasses) <= |logits| && 4 * n <= |boxes|
  {
    SomeIndices(QueryResults(boxes, logits, numClasses, floor, net, n))
  }

  /** Entry i of the query results is query i's contribution. */
  lemma {:induction false} QueryResultsAt(boxes: seq<real>, logits: seq<real>, numClasses: nat, floor: real,
                                         net: NetworkInfo, n: nat)
    requires RowStart(n, numClasses) <= |logits| && 4 * n <= |boxes|
    ensures |QueryResults(boxes, logits, numClasses, floor, net, n)| == n
    ensures forall i :: 0 <= i < n ==>
      RowStart(i, numClasses) + numClasses <= |logits| && 4 * i + 4 <= |boxes| &&
      QueryResults(boxes, logits, numClasses, floor, net, n)[i] == DecodeQuery(boxes, logits, numClasses, floor, net, i)
  {
    if n > 0 {
      QueryResultsAt(boxes, logits, numClasses, floor, net, n - 1);
      var prev := QueryResults(boxes, logits, numClasses, floor, net, n - 1);
      var last := DecodeQuery(boxes, logits, numClasses, floor, net, n - 1);
      assert QueryResults(boxes, logits, numClasses, floor, net, n) == prev + [last];
      forall i | 0 <= i < n
        ensures RowStart(i, numClasses) + numClasses <= |logits| && 4 * i + 4 <= |boxes|
        ensures QueryResults(boxes, logits, numClasses, floor, net, n)[i] ==
                DecodeQuery(boxes, logits, numClasses, floor, net, i)
      {
        if i < n - 1 {
          assert (prev + [last])[i] == prev[i];
        }
      }
    }
  }

  /** Decoding one more query appends the detection that the scan of its row
      calls for: one object when class 1 wins, nothing otherwise. This is the
      step fact the query loop of `AppendDetections` invokes. */
  lemma DecodeQueriesStep(boxes: seq<real>, logits: seq<real>, numClasses: nat, floor: real,
                          net: NetworkInfo, i: nat, best: Best)
    requires RowStart(i, numClasses) + numClasses <= |logits| && 4 * i + 4 <= |boxes|
    requires best == BestOf(Row(logits, numClasses, i), floor)
    ensures DecodeQueries(boxes, logits, numClasses, floor, net, i + 1) ==
      DecodeQueries(boxes, logits, numClasses, floor, net, i) +
      (if best.maxClass == PersonClassId as int then [PixelBox(boxes, i, net, best.maxProb)] else [])
  {
  }

  /** Query i yields a detection exactly when class 1 is the first maximum of
      its row above the floor. */
  lemma DecodeQuerySelects(boxes: seq<real>, logits: seq<real>, numClasses: nat, floor: real,
                           net: NetworkInfo, i: nat)
    requires RowStart(i, numClasses) + numClasses <= |logits| && 4 * i + 4 <= |boxes|
    ensures DecodeQuery(boxes, logits, numClasses, floor, net, i).Some?
            <==> IsFirstMaxAbove(Row(logits, numClasses, i), floor, PersonClassId)
  {
    BestOfIsFirstMax(Row(logits, numClasses, i), floor, PersonClassId);
  }

  /** A detection of query i has class 1, carries the class-1 logit of its
      row as its confidence (above the floor, no smaller than any logit of
      the row) and the box of query i scaled to pixels. */
  lemma DecodeQueryFields(boxes: seq<real>, logits: seq<real>, numClasses: nat, floor: real,
                          net: NetworkInfo, i: nat)
    requires RowStart(i, numClasses) + numClasses <= |logits| && 4 * i + 4 <= |boxes|
    requires DecodeQuery(boxes, logits, numClasses, floor, net, i).Some?
    ensures i * numClasses + numClasses <= |logits|
    ensures var obj := DecodeQuery(boxes, logits, numClasses, floor, net, i).value;
      && obj.classId == PersonClassId
      && 1 < numClasses
      && obj.detectionConfidence == logits[i * numClasses + 1]
      && floor < obj.detectionConfidence
      && (forall p :: i * numClasses <= p < i * numClasses + numClasses ==> logits[p] <= obj.detectionConfidence)
      && obj.width == boxes[i * 4 + 2] * net.width as real
      && obj.height == boxes[i * 4 + 3] * net.height as real
      && obj.left + obj.width / 2.0 == boxes[i * 4 + 0] * net.width as real
      && obj.top + obj.height / 2.0 == boxes[i * 4 + 1] * net.height as real
  {
    RowStartIsProduct(i, numClasses);
    var row := Row(logits, numClasses, i);
    BestOfBounds(row, floor);
    forall p | i * numClasses <= p < i * numClasses + numClasses
      ensures logits[p] == row[p - i * numClasses]
    {
    }
  }

  /** Query q has a row in the logits buffer and that row is won by class 1
      above the floor. */
  predicate WonByPerson(logits: seq<real>, numClasses: nat, floor: real, q: nat)
  {
    RowStart(q, numClasses) + numClasses <= |logits| &&
    IsFirstMaxAbove(Row(logits, numClasses, q), floor, PersonClassId)
  }

  /** The k-th detection is the detection of the k-th detected query; the
      detected queries are strictly increasing (output order is query
      order), there are at most n of them, all of class 1, and they are
      exactly the queries whose row is won by class 1 above the floor. */
  lemma DecodeQueriesInOrder(boxes: seq<real>, logits: seq<real>, numClasses: nat,
                             floor: real, net: NetworkInfo, n: nat)
    requires RowStart(n, numClasses) <= |logits| && 4 * n <= |boxes|
    ensures var r := DecodeQueries(boxes, logits, numClasses, floor, net, n);
            var sel := DetectedQueries(boxes, logits, numClasses, floor, net, n);
      && |r| == |sel| <= n
      && (forall k :: 0 <= k < |sel| ==>
            sel[k] < n && r[k].classId == PersonClassId &&
            RowStart(sel[k], numClasses) + numClasses <= |logits| && 4 * sel[k] + 4 <= |boxes| &&
            DecodeQuery(boxes, logits, numClasses, floor, net, sel[k]) == Some(r[k]))
      && (forall k, l :: 0 <= k < l < |sel| ==> sel[k] < sel[l])
      && (forall q :: 0 <= q < n ==> (q in sel <==> WonByPerson(logits, numClasses, floor, q)))
  {
    var results := QueryResults(boxes, logits, numClasses, floor, net, n);
    QueryResultsAt(boxes, logits, numClasses, floor, net, n);
    SomesAt(results);
    forall q | 0 <= q < n
      ensures results[q].Some? <==> WonByPerson(logits, numClasses, floor, q)
    {
      DecodeQuerySelects(boxes, logits, numClasses, floor, net, q);
    }
  }

  // ---------------------------------------------------------------------------
  // The parser entry point

  /** What the parser needs of its inputs and never checks: once both layers
      are found, a threshold for class 0, two logits dimensions, and buffers
      long enough for Q*C logits and 4*Q box coordinates. */
  predicate InputsReadable(layers: seq<LayerInfo>, params: DetectionParams)
  {
    var b := LastNamed(layers, BoxesName);
    var l := LastNamed(layers, LogitsName);
    b.Some? && l.Some? ==>
      && 1 <= |params.perClassPreclusterThreshold|
      && 2 <= |layers[l.value].inferDims|
      && layers[l.value].inferDims[0] * layers[l.value].inferDims[1] <= |layers[l.value].buffer|
      && 4 * layers[l.value].inferDims[0] <= |layers[b.value].buffer|
  }

  /** The outcome of one parser call: None when a layer is missing, otherwise
      the detections to append. */
  function ParseDetr(layers: seq<LayerInfo>, net: NetworkInfo, params: DetectionParams)
    : Option<seq<ObjectDetectionInfo>>
    requires InputsReadable(layers, params)
  {
    var b := LastNamed(layers, BoxesName);
    var l := LastNamed(layers, LogitsName);
    if b.None? || l.None? then None
    else
      var logits := layers[l.value];
      RowStartIsProduct(logits.inferDims[0], logits.inferDims[1]);
      Some(DecodeQueries(layers[b.value].buffer, logits.buffer, logits.inferDims[1],
                         params.perClassPreclusterThreshold[0], net, logits.inferDims[0]))
  }

  /** The parser fails exactly when no layer is called "boxes" or none is
      called "logits"; otherwise it yields at most Q detections, all of class 1. */
  lemma ParseDetrOutcome(layers: seq<LayerInfo>, net: NetworkInfo, params: DetectionParams)
    requires InputsReadable(layers, params)
    ensures ParseDetr(layers, net, params).None? <==>
      (forall k :: 0 <= k < |layers| ==> layers[k].layerName != BoxesName) ||
      (forall k :: 0 <= k < |layers| ==> layers[k].layerName != LogitsName)
    ensures ParseDetr(layers, net, params).Some? ==>
      var logits := layers[LastNamed(layers, LogitsName).value];
      && |ParseDetr(layers, net, params).value| <= logits.inferDims[0]
      && forall k :: 0 <= k < |ParseDetr(layers, net, params).value| ==>
           ParseDetr(layers, net, params).value[k].classId == PersonClassId
  {
    var b := LastNamed(layers, BoxesName);
    var l := LastNamed(layers, LogitsName);
    if b.Some? && l.Some? {
      var logits := layers[l.value];
      RowStartIsProduct(logits.inferDims[0], logits.inferDims[1]);
      DecodeQueriesInOrder(layers[b.value].buffer, logits.buffer, logits.inferDims[1],
                           params.perClassPreclusterThreshold[0], net, logits.inferDims[0]);
    }
  }

  /** The query loop of the parser: for each query in order, scan its
      logits and append a detection when class 1 wins. */
  method AppendDetections(boxes: seq<real>, logits: seq<real>, numQueries: nat, numClasses: nat,
                          floor: real, net: NetworkInfo, objectList: ObjectList)
    requires RowStart(numQueries, numClasses) <= |logits| && 4 * numQueries <= |boxes|
    modifies objectList
    ensures objectList.items ==
      old(objectList.items) + DecodeQueries(boxes, logits, numClasses, floor, net, numQueries)
  {
    for i := 0 to numQueries
      invariant RowStart(i, numClasses) <= |logits|
      invariant objectList.items ==
        old(objectList.items) + DecodeQueries(boxes, logits, numClasses, floor, net, i)
    {
      RowFits(i, numQueries, numClasses);
      RowStartIsProduct(i, numClasses);
      var maxClass, maxProb := ArgMaxWithFloor(logits, i * numClasses, numClasses, floor);
      DecodeQueriesStep(boxes, logits, numClasses, floor, net, i, Best(maxClass, maxProb));
      if maxClass == PersonClassId as int {
        var obj := PixelBox(boxes, i, net, maxProb);
        objectList.PushBack(obj);
      }
    }
  }

  /** NvDsInferParseCustomDETR: appends the decoded detections to `objectList`
      and returns true, or returns false and leaves it untouched when a
      layer is missing. */
  method ParseCustomDetr(layers: seq<LayerInfo>, net: NetworkInfo, params: DetectionParams,
                         objectList: ObjectList) returns (ok: bool)
    requires InputsReadable(layers, params)
    modifies objectList
    ensures ok <==> ParseDetr(layers, net, params).Some?
    ensures !ok ==> objectList.items == old(objectList.items)
    ensures ok ==> objectList.items == old(objectList.items) + ParseDetr(layers, net, params).value
  {
    var bboxLayer, logitsLayer := LocateLayers(layers);
    if bboxLayer.None? || logitsLayer.None? {
      return false;
    }
    var boxes := layers[bboxLayer.value].buffer;
    var logits := layers[logitsLayer.value].buffer;
    var numQueries := layers[logitsLayer.value].inferDims[0];
    var numClasses := layers[logitsLayer.value].inferDims[1];
    RowStartIsProduct(numQueries, numClasses);
    AppendDetections(boxes, logits, numQueries, numClasses, params.perClassPreclusterThreshold[0], net, objectList);
    return true;
  }

  // ---------------------------------------------------------------------------
  // Lifecycle hooks and default parameters

  /** NvDsInferInitialize: nothing to set up; always succeeds. */
  method Initialize() returns (ok: bool)
    ensures ok
  {
    ok := true;
  }

  /** NvDsInferDeInitialize: nothing to release. */
  method DeInitialize()
  {
  }

  /** NvDsInferGetDefaultParseDetectionParams: 91 classes, each with a
      pre-clustering threshold of 0.2. */
  method GetDefaultParseDetectionParams() returns (params: DetectionParams)
    ensures params.numClassesConfigured == DefaultNumClasses
    ensures |params.perClassPreclusterThreshold| == DefaultNumClasses
    ensures forall k :: 0 <= k < DefaultNumClasses ==> params.perClassPreclusterThreshold[k] == DefaultThreshold
  {
    var thresholds := new real[DefaultNumClasses];
    for i := 0 to DefaultNumClasses
      invariant forall k :: 0 <= k < i ==> thresholds[k] == DefaultThreshold
    {
      thresholds[i] := DefaultThreshold;
    }
    params := DetectionParams(DefaultNumClasses, thresholds[..]);
  }
}
