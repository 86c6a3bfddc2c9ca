# Face-landmarks overlay of `OutputRecorder`

This project models the part of `OutputRecorder` in the Vision face-landmarks demo
that turns each frame's face observations into overlay shapes. It then proves what the
overlay holds afterwards.

Per captured frame, the recorder performs a `VNDetectFaceLandmarksRequest`. It creates
the request lazily on the first frame and reuses it on every later one. The request's
completion handler works in this order:

1. It clears the shape layer.
2. On a detection error it raises that error.
3. Otherwise, for every observation that has landmarks, it scales the normalized
   bounding box to the view.
4. It then draws the nine landmark regions in a fixed order and style.

Each present region becomes one child shape layer: a polyline through the region's
points mapped into the scaled box, closed back to the first point for eyes, nose and
lips. The stroke is two units wide and the fill is clear.

Modules, following the program's structure:

- `Geometry`: points, sizes and rectangles over exact reals. It holds `Scale` and the
  point mapping of `DrawLandmark`, with their inverses.
- `Paths`: the path commands `DrawLandmark` emits (`Polyline`) and the loop that emits
  them (`BuildPath`).
- `Landmarks`: regions, observations, the region-to-style table and the drawing order.
- `Overlay`: the child shape (a value) and the parent `ShapeLayer` (an object whose
  list of children changes), `AddSublayer`/`RemoveSublayer` and `RemoveSublayers`.
- `Rendering`: what the overlay holds after one face and after one frame
  (`FaceShapes`, `FrameShapes`), and the lemmas about it.
- `Recorder`: the `OutputRecorder` class. `DrawLandmark`, the nine calls for a face
  (`DrawFace`), the completion handler (`Complete`) and `DetectFaceLandmarks` update
  the shape layer in place. Each is proved against the `Rendering` functions.
- `Wrappers`: `Option` and `Outcome`.

How the source's effects appear in the model:

- Vision's detection is an input. `DetectFaceLandmarks` receives what `Perform` does
  with the request as a `PerformOutcome`:
  - `Rejected` means the handler reported `requestHandlerError` and the completion
    never ran;
  - `Performed` carries the completion's error or its observations.
- A thrown exception is an `Outcome.Fail` carrying the error text.
- The view's bounds and frame are fixed fields of the recorder.

## Model

| member | source | states |
|---|---|---|
| Geometry.ScaleFarEdges | Vision.FaceLandmarksDemo/ViewController.cs:242-251 | `Scale` multiplies x and width by the view width and y and height by the view height, so the far edges scale like the origin; a 1 by 1 view leaves the box unchanged |
| Geometry.Unscale | Vision.FaceLandmarksDemo/ViewController.cs:242-251 | Dividing by a view size with no zero side is undone by `Scale`: x and width are scaled by the width, y and height by the height |
| Geometry.ScaleRoundTrip | Vision.FaceLandmarksDemo/ViewController.cs:242-251 | `Scale` loses nothing for a view with no zero side: unscaling gives the normalized box back |
| Geometry.ScaleDoesNotClamp | Vision.FaceLandmarksDemo/ViewController.cs:242-251 | No clamping: for a positive view size, each edge of the box lies outside the unit square exactly when the scaled edge lies outside the view, in both directions |
| Geometry.ScaleIsLinear | Vision.FaceLandmarksDemo/ViewController.cs:242-251 | `Scale` is linear in the box, axis by axis |
| Geometry.UnmapPoint | Vision.FaceLandmarksDemo/ViewController.cs:213 | When the box has no zero side, every view point is the image of some box-relative point, and this function returns one |
| Geometry.MapPointRoundTrip | Vision.FaceLandmarksDemo/ViewController.cs:213 | Unmapping a mapped point gives the point back, so for a box with no zero side at most one box-relative point maps to a given view point |
| Geometry.MapPointCorners | Vision.FaceLandmarksDemo/ViewController.cs:213 | The relative corners (0, 0), (1, 0), (0, 1) and (1, 1) map to the corners of the box |
| Geometry.MapPoints | Vision.FaceLandmarksDemo/ViewController.cs:213 | The mapped region has the same length and order as the input: point i becomes `(x*W + X, y*H + Y)` of point i |
| Geometry.UnmapPoints | Vision.FaceLandmarksDemo/ViewController.cs:213 | Inverse mapping keeps length and order: point i is unmapped point by point |
| Geometry.MapPointsRoundTrip | Vision.FaceLandmarksDemo/ViewController.cs:213 | Mapping a region and unmapping it gives the region back, so the mapping is injective for a box with no zero side |
| Geometry.MapPointsUnitBox | Vision.FaceLandmarksDemo/ViewController.cs:213 | Mapping into the unit box (0, 0, 1, 1) leaves every point unchanged |
| Geometry.MapIntoScaledBox | Vision.FaceLandmarksDemo/ViewController.cs:165 | Mapping into the scaled box equals mapping into the normalized box and then scaling to the view |
| Geometry.MapPointsIntoScaledBox | Vision.FaceLandmarksDemo/ViewController.cs:165 | The same, for point i of a whole region |
| Geometry.MapPointsAppend | Vision.FaceLandmarksDemo/ViewController.cs:213 | Mapping distributes over concatenation: the lazy `Select` keeps order across any split |
| Geometry.WorkedExample | Vision.FaceLandmarksDemo/ViewController.cs:242-251 | Box (0.4, 0.4, 0.2, 0.2) in a 400 by 400 view scales to (160, 160, 80, 80), and (0.1, 0.1), (0.2, 0.1), (0.15, 0.2) map to (168, 168), (176, 168), (172, 176) |
| Paths.LinesTo | Vision.FaceLandmarksDemo/ViewController.cs:225-228 | One line-to per point, in order |
| Paths.Vertices | Vision.FaceLandmarksDemo/ViewController.cs:222-233 | The points a path visits: one per command, in order |
| Paths.BuildPath | Vision.FaceLandmarksDemo/ViewController.cs:222-233 | The `MoveTo`/`AddLineTo` loop produces exactly the polyline of the mapped points, closed when asked |
| Paths.PolylineCommands | Vision.FaceLandmarksDemo/ViewController.cs:224-233 | For n ≥ 1 points: n commands when open and n + 1 when closed. The only move-to is the first, to point 0. Command i is a line-to point i. A closed path ends with a line-to the first point |
| Paths.PolylineVertices | Vision.FaceLandmarksDemo/ViewController.cs:224-233 | The path visits exactly the points in order, plus the first point again when closed |
| Paths.PolylineEnd | Vision.FaceLandmarksDemo/ViewController.cs:224-233 | A path starts at the first point. A closed one ends there too; an open one ends at the last point |
| Landmarks.PresentRegions | Vision.FaceLandmarksDemo/ViewController.cs:208-211 | No more names than listed; a name is kept exactly when it is listed and its region is present |
| Landmarks.PresentRegionsAppend | Vision.FaceLandmarksDemo/ViewController.cs:208-211 | Filtering keeps the listed order: the names kept from `a + b` are those kept from `a` followed by those kept from `b` |
| Landmarks.PresentRegionsSingle | Vision.FaceLandmarksDemo/ViewController.cs:208-211 | A single name is kept exactly when its region is present |
| Landmarks.StyleOf | Vision.FaceLandmarksDemo/ViewController.cs:169-181 | The style table: closed exactly for eyes, nose and lips; white exactly for the contour; green exactly for the eyes; blue exactly for nose, nose crest and eyebrows; yellow exactly for the lips; never clear |
| Landmarks.DrawableRegions | Vision.FaceLandmarksDemo/ViewController.cs:224 | A face can be drawn exactly when each of its regions, by name, is missing or has a first point |
| Landmarks.DrawOrderTable | Vision.FaceLandmarksDemo/ViewController.cs:169-181 | The drawing order and style table, call by call: contour open white; eyes closed green; nose closed blue; nose crest open blue; lips closed yellow; eyebrows open blue |
| Landmarks.DrawOrderIsComplete | Vision.FaceLandmarksDemo/ViewController.cs:169-181 | The drawing order names each of the nine regions exactly once |
| Overlay.FirstIndex | Vision.FaceLandmarksDemo/ViewController.cs:201 | The position of the first child equal to the given one: it is that child, and no earlier child equals it |
| Overlay.RemoveFirst | Vision.FaceLandmarksDemo/ViewController.cs:201 | Removing an absent child changes nothing; removing the head child drops the head |
| Overlay.RemoveFirstSplit | Vision.FaceLandmarksDemo/ViewController.cs:201 | Removing a present child keeps the children before its first occurrence and those after it, in order |
| Overlay.RemoveFirstCount | Vision.FaceLandmarksDemo/ViewController.cs:201 | Removing a present child leaves one child fewer, and exactly one occurrence of it is gone |
| Overlay.ShapeLayer.constructor | Vision.FaceLandmarksDemo/ViewController.cs:16 | A new shape layer has no children |
| Overlay.ShapeLayer.AddSublayer | Vision.FaceLandmarksDemo/ViewController.cs:238 | The new child goes last; earlier children are unchanged |
| Overlay.ShapeLayer.RemoveSublayer | Vision.FaceLandmarksDemo/ViewController.cs:201 | The child leaves the layer's list; the others keep their order |
| Overlay.RemoveSublayers | Vision.FaceLandmarksDemo/ViewController.cs:194-204 | Whatever the layer held, it ends with no children. The loop runs over a copy of the list, and each removal takes out the current first child |
| Rendering.RegionShapesContents | Vision.FaceLandmarksDemo/ViewController.cs:208-238 | A missing region adds nothing. A present one adds one shape: region colour, width 2, clear fill, view frame, and a path of n or n + 1 commands through the mapped points, starting with a move-to the first |
| Rendering.RegionsShapes | Vision.FaceLandmarksDemo/ViewController.cs:169-181 | At most one shape per listed region |
| Rendering.FaceShapes | Vision.FaceLandmarksDemo/ViewController.cs:169-181 | A face gets at most nine shapes |
| Rendering.FrameShapes | Vision.FaceLandmarksDemo/ViewController.cs:157-183 | A frame gets at most nine shapes per observation |
| Rendering.RegionsDrawn | Vision.FaceLandmarksDemo/ViewController.cs:169-181 | Drawing the regions one at a time, each draw appending that region's shapes, appends all of their shapes in that order |
| Rendering.FaceDrawn | Vision.FaceLandmarksDemo/ViewController.cs:169-181 | The nine calls with their literal styles append exactly the face's shapes in the table's drawing order |
| Rendering.RegionsShapesStyled | Vision.FaceLandmarksDemo/ViewController.cs:169-181 | Shape k of a face is the k-th present region in drawing order, mapped and styled by the table: one shape per present region and none for a missing one |
| Rendering.AllRegionsPresent | Vision.FaceLandmarksDemo/ViewController.cs:208-211 | When every region is present, no name is dropped |
| Rendering.FullFace | Vision.FaceLandmarksDemo/ViewController.cs:169-181 | A face with all nine regions gets nine shapes; shape k is region k of the drawing order, mapped into the box and styled by the table |
| Rendering.WithLandmarks | Vision.FaceLandmarksDemo/ViewController.cs:159-162 | No more observations than given; an observation is kept exactly when it is given and has landmarks |
| Rendering.WithLandmarksAppend | Vision.FaceLandmarksDemo/ViewController.cs:159-162 | Filtering keeps result order: the observations kept from `a + b` are those kept from `a` followed by those kept from `b` |
| Rendering.WithLandmarksSingle | Vision.FaceLandmarksDemo/ViewController.cs:159-162 | A single observation is kept exactly when it has landmarks |
| Rendering.FrameShapesPrefix | Vision.FaceLandmarksDemo/ViewController.cs:157-183 | Drawing one more result appends that observation's face shapes, or nothing when it has no landmarks |
| Rendering.FrameShapesAppend | Vision.FaceLandmarksDemo/ViewController.cs:157-183 | The frame's shapes split along the result list: observations are drawn in result order |
| Rendering.FrameShapesSkipMissing | Vision.FaceLandmarksDemo/ViewController.cs:159-162 | Observations without landmarks contribute nothing: dropping them leaves the overlay as it is |
| Rendering.NoLandmarksNoShapes | Vision.FaceLandmarksDemo/ViewController.cs:159-162 | A frame whose observations all lack landmarks leaves the overlay empty |
| Rendering.FaceShapesUniformStroke | Vision.FaceLandmarksDemo/ViewController.cs:217-220 | Every shape of a face is two units wide, unfilled and framed like the view |
| Rendering.FrameShapesUniformStroke | Vision.FaceLandmarksDemo/ViewController.cs:217-220 | Every overlay shape is two units wide, unfilled and framed like the view |
| Rendering.OnlyLeftEye | Vision.FaceLandmarksDemo/ViewController.cs:208-211 | A face whose only region is the left eye has the left eye as its only present region |
| Rendering.NoRegionsPresent | Vision.FaceLandmarksDemo/ViewController.cs:208-211 | Names of missing regions are all dropped |
| Rendering.LeftEyeOnlyFace | Vision.FaceLandmarksDemo/ViewController.cs:171 | Such a face gets one closed green shape along the left eye |
| Rendering.LeftEyePath | Vision.FaceLandmarksDemo/ViewController.cs:224-233 | The closed path of the worked eye is move-to (168, 168), then line-to (176, 168), (172, 176) and (168, 168) |
| Rendering.LeftEyeScenario | Vision.FaceLandmarksDemo/ViewController.cs:148-182 | End to end: one observation with only a left eye in box (0.4, 0.4, 0.2, 0.2) and a 400 by 400 view leaves exactly one shape, that closed green path, width 2, clear fill |
| Recorder.OutputRecorder.constructor | Vision.FaceLandmarksDemo/ViewController.cs:121-125 | The recorder keeps the view and shape layer it is given and has no request yet |
| Recorder.OutputRecorder.DrawLandmark | Vision.FaceLandmarksDemo/ViewController.cs:206-240 | A missing region leaves the layer as it was. A present one appends exactly its styled, mapped polyline shape after the existing children |
| Recorder.OutputRecorder.DrawFace | Vision.FaceLandmarksDemo/ViewController.cs:167-182 | The nine `DrawLandmark` calls append exactly the face's shapes after what the layer held |
| Recorder.OutputRecorder.Complete | Vision.FaceLandmarksDemo/ViewController.cs:146-184 | Clear first, then check the error. On an error the result is `Fail` with it and the layer is empty. Otherwise the result is `Pass` and the layer holds exactly the frame's shapes, in result order, skipping observations without landmarks |
| Recorder.OutputRecorder.DetectFaceLandmarks | Vision.FaceLandmarksDemo/ViewController.cs:142-192 | On the first frame it creates a fresh request; later it reuses the same one, so every frame submits one request. A rejected request fails and leaves the overlay untouched; a performed one behaves as `Complete` |

## Left out

- Camera setup and device discovery (`GetDevice`, `ConfigureDeviceAndStart`): AVFoundation I/O.
- View lifecycle and layer frames (`ViewDidLoad`, `ViewDidAppear`, `ViewDidLayoutSubviews`): UI calls.
  - The y-flip transform on the shape layer is a constant transform of the root layer, applied by Core Animation at display time. It does not touch the per-point mapping and is not part of this model.
- Pixel buffer and `CIImage` creation, orientation correction and buffer disposal in `DidOutputSampleBuffer`: image library calls. So `DetectFaceLandmarks` takes no image.
- Vision's detection (`Perform`, `GetResults`): a foreign call. It is an input to `DetectFaceLandmarks`: either the handler's error or the completion's result.
- `InvokeOnMainThread` and late-frame dropping: concurrency. Drawing runs sequentially, right after the clear, within the same completion.
- `CGFloat` rounding: coordinates are exact reals, and nothing is claimed about rounding.
- Recorder.OutputRecorder.DrawLandmark: an empty present region is a precondition, because `mappedPoints.First()` would throw on it. The empty-region exception path is not modelled.
- Recorder.OutputRecorder.DrawFace: it requires every present region of the face to have a point, for the same reason.
- Overlay.ShapeLayer.RemoveSublayer: `RemoveFromSuperLayer` on a child is modelled as the parent removing its first equal child. Child layers are values here, so identity and aliasing of layers are not modelled. Over the copied list the removed child is always the current first one, so the outcome is the same.
- The `UIBezierPath` object is modelled as the list of commands it receives. The conversion to `CGPath` and the disposal of the temporary layer and path are not modelled.
- The view's bounds and frame are fixed for the recorder's lifetime; a layout change between frames is not modelled.
- Exceptions from the completion handler and from `DetectFaceLandmarks` are returned as `Outcome.Fail` with the error text. What the caller does with them is not modelled.
