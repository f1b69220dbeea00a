# DETR output parser for the DeepStream inference element

This project models the custom output parser `NvDsInferParseCustomDETR` and its
companion entry points from `nvdsinfer_customparser_detr.cpp`, and proves what
the parser guarantees about the detections it hands back to the inference
engine.

The parser receives the network's output layers, the network input size and
the detection parameters. It:

- finds the layers named `"boxes"` and `"logits"`; the lookup loop overwrites
  its pointer on every match, so the last layer with a name wins;
- fails, leaving the caller's object list untouched, when either is missing;
- otherwise reads Q = `logits.inferDims[0]` queries of C = `inferDims[1]`
  class logits each;
- for every query, scans the classes from a floor equal to
  `perClassPreclusterThreshold[0]`; a class replaces the current best only when
  its logit is strictly greater, so the first index of the row maximum wins;
- keeps the query only when class 1 (person) wins;
- turns the normalised centre box `(cx, cy, w, h)` into a pixel box
  `(left, top, width, height)`;
- appends the detection to the caller's list.

Files and modules:

- `options.dfy` (module `Options`): `Option`, and the order-preserving
  collection of the present values of a sequence of options, with its
  index lemma.
- `nvdsinfer.dfy` (module `NvDsInfer`): the records the parser exchanges with
  the engine. `LayerInfo`, `NetworkInfo`, `DetectionParams` and
  `ObjectDetectionInfo` are datatypes. The caller-owned output vector is the
  class `ObjectList`, whose `PushBack` appends in place.
- `detr_parser.dfy` (module `CustomParserDetr`): the parser.
  - Specification functions: `LastNamed`, `BestOf`, `Row`, `PixelBox`,
    `DecodeQuery`, `DecodeQueries`, `ParseDetr`.
  - Methods that follow the source's loops: `LocateLayers`,
    `ArgMaxWithFloor`, `AppendDetections`, `ParseCustomDetr`,
    `GetDefaultParseDetectionParams`.
  - Lemmas relating the two, and the declarative meaning of the scan
    (`IsFirstMaxAbove`, `WonByPerson`).

The flat logits buffer is indexed as in the source (`i * C + c`). Inside the
proofs, row offsets are computed by `RowStart` (repeated addition), and
`RowStartIsProduct` proves that this offset is `i * C`.

Two behaviours of the code are worth stating outright:

- On a missing layer the parser returns false and leaves `objectList` as it
  was. It never clears the list, and a successful call appends after what the
  list already held.
- Several layers may share a name; the lookup keeps the last one.

## Model

| member | source | states |
|---|---|---|
| `CustomParserDetr.LastNamed` | nvdsinfer_customparser_detr.cpp:17-23 | the layer pointer ends up null exactly when no layer has the name; otherwise it points to a layer with that name after which no layer has it (the last match wins) |
| `CustomParserDetr.LocateLayers` | nvdsinfer_customparser_detr.cpp:14-23 | the lookup loop leaves `bboxLayer` and `logitsLayer` at the last layers named "boxes" and "logits", or null |
| `CustomParserDetr.BestOfBounds` | nvdsinfer_customparser_detr.cpp:38-47 | the class scan ends with class -1 and score = threshold when no logit beats the threshold; otherwise with a class in range whose logit is the score, above the threshold, no smaller than any logit of the row and strictly greater than every earlier logit |
| `CustomParserDetr.BestOfIsFirstMax` | nvdsinfer_customparser_detr.cpp:38-47 | the scan selects class j if and only if j is the first index of the row maximum and that maximum is strictly above the threshold (strict `>` tie rule) |
| `CustomParserDetr.ArgMaxWithFloor` | nvdsinfer_customparser_detr.cpp:38-47 | the inner loop over `logits[i*C + c]` computes exactly the scan of row i from the threshold |
| `CustomParserDetr.RowStartIsProduct` | nvdsinfer_customparser_detr.cpp:42 | the model's row offset `RowStart(i, C)` equals the source's `i * num_classes` |
| `CustomParserDetr.PixelBoxExample` | nvdsinfer_customparser_detr.cpp:56-64 | box (0.5, 0.5, 0.2, 0.4) on a 1280x720 input gives left 512, top 216, width 256, height 288 |
| `CustomParserDetr.DecodeQuerySelects` | nvdsinfer_customparser_detr.cpp:38-51 | query i yields an object if and only if class 1 is the first maximum of its row and is strictly above `perClassPreclusterThreshold[0]`; so a query won by another class, or whose class-1 logit does not beat the threshold, yields nothing |
| `CustomParserDetr.DecodeQueryFields` | nvdsinfer_customparser_detr.cpp:51-64 | an emitted object has classId 1 and confidence `logits[i*C+1]`, which is above the threshold and no smaller than any logit of the row; its width is `boxes[4i+2]*W`, its height `boxes[4i+3]*H`, and the box is centred on (`boxes[4i]*W`, `boxes[4i+1]*H`) |
| `CustomParserDetr.DecodeQueriesInOrder` | nvdsinfer_customparser_detr.cpp:37-67 | the k-th appended object is the object of the k-th emitting query; emitting queries are strictly increasing (query order, no reordering); at most one object per query, so at most Q objects, all of class 1; and a query emits exactly when its row is won by class 1 above the threshold |
| `CustomParserDetr.ParseDetrOutcome` | nvdsinfer_customparser_detr.cpp:17-70 | the parse fails if and only if no layer is named "boxes" or none is named "logits"; on success it yields at most `inferDims[0]` objects, all of class 1 |
| `CustomParserDetr.AppendDetections` | nvdsinfer_customparser_detr.cpp:37-67 | the query loop appends exactly the decoded detections of queries 0..Q-1 after the list's previous contents |
| `CustomParserDetr.ParseCustomDetr` | nvdsinfer_customparser_detr.cpp:7-71 | returns true exactly when both layers exist; on false the object list is unchanged; on true the old list is kept as a prefix and the decoded detections follow it |
| `NvDsInfer.ObjectList.PushBack` | nvdsinfer_customparser_detr.cpp:66 | `push_back` adds the object at the end and leaves the earlier entries in place |
| `CustomParserDetr.Initialize` | nvdsinfer_customparser_detr.cpp:73-75 | the initialisation hook always succeeds |
| `CustomParserDetr.GetDefaultParseDetectionParams` | nvdsinfer_customparser_detr.cpp:81-87 | the default parameters have 91 configured classes and threshold 0.2 for every class 0..90 |

## Left out

- Floating point: logits, box coordinates, the 0.2 threshold and the box arithmetic are modelled as exact reals. IEEE-754 `float` rounding is not modelled.
- Integer widths: dimensions, `i * num_classes + c` and the network size are naturals. The conversion of an unsigned dimension above `INT_MAX` to a negative `int`, and overflow of the index product, are not modelled.
- Unchecked buffer sizes: the code reads memory without checking sizes. `InputsReadable` states what it relies on once both layers are found: at least one threshold, two logits dimensions, Q*C logits and 4*Q box values. It is a precondition of `ParseDetr` and `ParseCustomDetr`.
- `void *handle`, buffer ownership and lifetime, and the `std::cerr` message on a missing layer are left out; they have no effect on the result.
- `NetworkInfo` holds only the width and height; the parser reads no other field.
- `NvDsInferDeInitialize` is modelled as `CustomParserDetr.DeInitialize`, an empty method. It has no effect, so there is no contract to state and no table row.
- `GetDefaultParseDetectionParams` models the threshold table as a sequence of 91 entries, the ones the loop writes. The header that declares `NvDsInferParseDetectionParams` is not part of this model. Whether the table's storage already holds 91 entries before the loop writes them is not modelled.
- Repeated calls give identical output because every specification function is a function of its inputs. No separate lemma states this.
- The query loop (`AppendDetections`) does the box arithmetic through the function `PixelBox` instead of inline statements. The values it computes are the same.
- main.cpp and main.py (pipeline assembly, pad linking, bus polling, the on-screen-display probes that count objects per class) and export_detr_onnx.py (model export through a foreign library) are framework glue and are not part of this model.
