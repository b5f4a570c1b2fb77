# Doodle video stylizer: a Dafny model of its processing core

The service takes an uploaded video and returns a stylized copy. On `/process` it:
- extracts the video's frames;
- lists and sorts the extracted `.png` files;
- outlines each frame and composites it with a transparent layer of random doodles (lines, zigzags, stars, spirals, arrows and scribble patches);
- saves the result under the frame's own name;
- encodes the saved frames back into a video at the frame rate that the probe reports for the upload.

The doodle layer is redrawn every sixth frame and reused in between.

This project models that core in Dafny:

- `text.dfy` (module `Text`) holds the Python `str` operations the core relies on:
  - `isspace`, `strip`, `split` on one separator, `endswith`
  - `str(int)`, and integer fields of ASCII digits as `float()` reads them
- `ordering.dfy` (module `Ordering`) holds Python's `str` ordering and `sorted()` under it. Any sort gives the same list.
- `framerate.dfy` (module `FrameRate`) models `get_video_fps`.
  - The rate is kept as the exact ratio `num/den`.
  - Every failure is an explicit error: a wrong number of fields, a field that is not a number, or a zero denominator.
- `doodles.dfy` (module `Doodles`) models `add_doodles_everywhere` and its five pattern helpers.
  - Python's `random` is replaced by an injected stream of raw draws, read in the order the source calls it.
  - Every draw call is recorded as a primitive (segment, polyline, arc), not rasterised.
  - The shape of each pattern is stated independently of the draws. The passes draw exactly the well-formed doodles, in both directions.
- `pipeline.dfy` (module `Pipeline`) models `process_video`:
  - the listing of frames;
  - the frame loop with its one-variable overlay cache, as a loop over the sorted names;
  - `reconstruct_video`'s use of the probed rate;
  - the endpoint's answer.

  The file system and the external tools are parameters:
  - `extract` is the listing the frame extraction leaves behind.
  - `probe` is the probe's standard output.
  - `load` opens and converts a frame.
  - `outline` stands for `add_clean_white_outline`.
  - `composite` stands for the alpha compositing and the conversion back to RGB.

Random draws: the k-th call to `random.randint(lo, hi)` or `random.choice(xs)` reads the raw value `rng(k)`.
- A raw value inside the range is the result, as Python would return it.
- A raw value outside the range is clamped to the range (`RandInt`, `Choice`).

The model therefore covers every sequence of results Python can produce. Overlays drawn one after another continue on the same stream (`Start`, `OverlayStart`).

## Model

| member | source | states |
|---|---|---|
| `Text.Strip` | main.py:51 | `strip()` never lengthens the text. The result is empty or starts and ends with a non-space. An empty result means the text was all whitespace. |
| `Text.StripPadding` | main.py:51 | `strip()` of whitespace + t + whitespace is t when t starts and ends with a non-space. |
| `Text.CountStrip` | main.py:51-52 | Stripping never removes a `/`: the number of separators before and after `strip()` is the same. |
| `Text.Split` | main.py:52 | `split('/')` gives one more part than there are separators. No part contains one, and joining the parts with `/` gives back the text. |
| `Text.SplitJoin` | main.py:52 | Splitting the join of separator-free parts gives back exactly those parts. |
| `Text.SplitAround` | main.py:52 | Splitting a + "/" + b gives a's parts followed by b's. |
| `Text.ParseInt` | main.py:53 | A field `float()` accepts as an integer strips to something non-empty. It holds none of the separator controls U+001C to U+001F: `isspace()` counts them as whitespace, but `float()` does not strip them. |
| `Text.ParseShowInt` | main.py:53 | `str(i)`, with any whitespace `float()` strips around it, reads back as exactly `i`. That whitespace is every `isspace()` character except U+001C to U+001F. |
| `Text.DigitsValueShow` | main.py:53 | The decimal digits of `n` denote `n`. |
| `Ordering.LessEqTotal` | main.py:188-190 | Python's `str` ordering is total. |
| `Ordering.LessEqTransitive` | main.py:188-190 | Python's `str` ordering is transitive. |
| `Ordering.LessEqAntisymmetric` | main.py:188-190 | Two names ordered both ways are equal. |
| `Ordering.Insert` | main.py:188-190 | Inserting into a sorted list keeps it sorted and adds exactly that name. |
| `Ordering.Sort` | main.py:188-190 | `sorted()` returns a sorted permutation of its input. |
| `Ordering.SortedUnique` | main.py:188-190 | Two sorted permutations of the same names are equal, so `sorted()`'s result is determined by the names alone. |
| `FrameRate.ParseFrameRate` | main.py:51-53 | A success never has a zero denominator. The text has other than one `/` exactly when the result is the part-count error, with the number of parts `split` gives. A field that is not a number contains no `/` and is rejected by the field reader. |
| `FrameRate.ParseFields` | main.py:53 | Two fields parse exactly when both are integers and the denominator is non-zero, and the result is their exact ratio. Otherwise the error is `NotANumber(num)` when the numerator does not read, whatever the denominator; then `NotANumber(den)`; and only with both fields read, the zero denominator. |
| `FrameRate.ParseProbeText` | main.py:51-53 | The probe's `num/den`, with whitespace around it, reads back as exactly `num` and `den`, with no rounding. The one failure is a zero denominator. |
| `FrameRate.ParseFrameRateFields` | main.py:51-53 | Whatever the two fields around the one `/` of the stripped text are, the result is what reading those two fields gives. |
| `FrameRate.SeparatorControlIsNotANumber` | main.py:51-53 | The probe output `30000` U+001C `/1001` is rejected as `NotANumber("30000" + U+001C)`. `strip()` keeps the inner U+001C, and `float()` does not strip it. |
| `FrameRate.ProbeFields` | main.py:52 | `num/den` splits into the two numbers as written. |
| `FrameRate.NtscRateIsExact` | main.py:51-53 | The output `30000/1001` followed by a newline gives the rate 30000/1001 exactly. |
| `Doodles.RandInt` | main.py:146-147 | A draw for `randint(lo, hi)` lies in [lo, hi], both ends included, and equals the raw value when that is in range. |
| `Doodles.Choice` | main.py:149 | A `choice` draw is an element of the list: the element at the raw index when that is in range. |
| `Doodles.PatternChoice` | main.py:150-152 | The pattern name at the raw index of the six-name list. |
| `Doodles.ZigzagVertices` | main.py:109-113 | Vertex k of the zigzag is (x + 10k, y + draw k). |
| `Doodles.ZigzagShape` | main.py:109-113 | Whatever the draws, `draw_zigzag` draws one width-3 polyline of 6 vertices, vertex k at x + 10k and within 20 of y. |
| `Doodles.DrawZigzag` | main.py:109-113 | The append loop builds exactly the zigzag's vertex list, the result has the zigzag shape, and it reads 6 draws. |
| `Doodles.ScribbleLinesAt` | main.py:132-143 | Line k of a scribble patch reads the four draws from 4k on, in the order x1, y1, x2, y2. |
| `Doodles.ScribbleShape` | main.py:132-143 | A scribble patch is 6 width-3 segments with every end point within 20 of the origin. |
| `Doodles.DrawScribblePatch` | main.py:132-143 | The six-line loop draws exactly the scribble patch, of that shape, and reads 24 draws. |
| `Doodles.StrokesHaveShape` | main.py:102-169 | Whatever the draws, the branch for each pattern name draws the shape of that pattern: line, zigzag, star, spiral, arrow, scribble. |
| `Doodles.ScribbleRaws` | main.py:132-143 | A scribble patch's first n lines use 4n draws. |
| `Doodles.StrokeRaws` | main.py:102-169 | The draws read off a stroke list are as many as its pattern's branch uses. |
| `Doodles.ScribbleLineReplay` | main.py:134-143 | A scribble line fed the offsets of a segment near the origin draws that segment. |
| `Doodles.ScribbleReplay` | main.py:132-143 | A scribble patch fed its own offsets is redrawn line by line. |
| `Doodles.StrokesReplay` | main.py:102-169 | Every stroke list of a pattern's shape is drawn by that pattern's branch when fed the draws read off it. This is the converse of `StrokesHaveShape`. |
| `Doodles.Pass` | main.py:145-169 | One pass picks its pattern from the fourth draw, a colour from the palette, and an origin with 0 <= x <= width and 0 <= y <= height, both bounds inclusive. |
| `Doodles.PassDraws` | main.py:145-169 | A pass reads between 5 and 28 draws. |
| `Doodles.PassWellFormed` | main.py:145-169 | Every pass draws a well-formed doodle: a palette colour, an origin inside the canvas, and strokes of its pattern's shape. |
| `Doodles.PassRaws` | main.py:145-169 | The draws read off a well-formed doodle are 4 plus the draws its pattern uses. |
| `Doodles.PassReplay` | main.py:145-169 | A pass fed the draws read off a well-formed doodle draws that doodle and reads exactly those draws. |
| `Doodles.PassDrawsExactlyWellFormed` | main.py:145-169 | A doodle is well formed if and only if some draws make a pass draw it. |
| `Doodles.DrawPass` | main.py:145-169 | The loop body, dispatching on the pattern name, draws the pass and moves the draw position past exactly the draws it read. |
| `Doodles.Start` | main.py:145 | Pass i starts between 5i and 28i draws after the first. |
| `Doodles.Layer` | main.py:145-169 | A layer of n passes has n doodles. |
| `Doodles.LayerSnoc` | main.py:145-169 | One more pass appends one doodle. |
| `Doodles.LayerWellFormed` | main.py:145-169 | Every doodle of a layer is well formed. |
| `Doodles.AddDoodlesEverywhere` | main.py:98-171 | The 120-pass loop draws exactly the layer of 120 passes, each doodle well formed, and stops where the layer's draws end. |
| `Pipeline.PathJoin` | main.py:181 | `os.path.join(directory, name)` on POSIX paths. An absolute name is the result. Otherwise the result is the directory, then a `/` only when the directory is non-empty and does not already end in one, then the name. |
| `Pipeline.PathJoinInjective` | main.py:200-215 | Two different relative names give two different paths in the same directory, so no frame is read from or saved over another frame's file. |
| `Pipeline.PngNames` | main.py:188-190 | The filter keeps every listed name that ends in `.png`, as many times as it is listed, and no other name. |
| `Pipeline.PngFrames` | main.py:188-190 | The frames are sorted and are a permutation of the filtered names: every `.png` entry of the listing is a frame, as often as it is listed. |
| `Pipeline.DrawOverlay` | main.py:205-206 | A new layer for a frame is the 120-pass layer at that frame's size, drawn from the current draw position. |
| `Pipeline.OverlayStart` | main.py:204-207 | Overlay g starts at least 600g draws after the first. |
| `Pipeline.DrawnAt` | main.py:204-207 | Overlay g is the one drawn at frame 6g, at that frame's size. |
| `Pipeline.SavedAt` | main.py:197-215 | Saved record i is frame i, written under its own name, outlined and composited with overlay i / 6 of its size. |
| `Pipeline.SavedExtend` | main.py:204-207 | Drawing a new overlay changes nothing already saved. |
| `Pipeline.MismatchBreaksUniform` | main.py:204-212 | A frame that meets an overlay of another size shows that the frames do not all open at one size. |
| `Pipeline.DrawGroupOverlay` | main.py:204-207 | At a multiple of six a new overlay of the frame's size is drawn from where the last one stopped, appended, and cached. |
| `Pipeline.ReuseOverlay` | main.py:204 | Between multiples of six the cache is already set and holds the overlay of the frame's group. |
| `Pipeline.RefreshOverlay` | main.py:204-207 | The cache step draws a new overlay exactly when i % 6 == 0 and otherwise changes nothing. The `is None` test never adds a draw. |
| `Pipeline.ComposeFrame` | main.py:209-215 | A frame of the overlay's size is saved under its own name. Otherwise compositing fails with a size mismatch, and then the frames were not uniform. |
| `Pipeline.StylizeFrame` | main.py:200-215 | One pass of the frame loop. It either keeps the loop state one frame further, or stops on a frame that does not open or whose overlay has another size. |
| `Pipeline.ProcessFrames` | main.py:195-215 | The loop saves frames in sorted order, one per name, with overlay i / 6 drawn at frame 6(i / 6). It finishes exactly when every frame is saved, with ceil(n / 6) overlays. It stops only on the first unreadable or mismatched frame, which frames of one size never cause. |
| `Pipeline.CompositedWithGroupOverlay` | main.py:204-212 | Frame i is composited with the overlay drawn at frame i - i % 6, at that frame's size, from the draw position where the previous overlays stopped. |
| `Pipeline.SavedInOrder` | main.py:188-215 | Record i is saved under frame i's own name: no drop, duplicate or reordering. |
| `Pipeline.DrawnOverlayShape` | main.py:205-206 | Every overlay holds 120 well-formed doodles in the palette's colours, inside its frame. |
| `Pipeline.ReconstructVideo` | main.py:55-72 | The encoder job exists exactly when the probed rate parses. Its rate is exactly the parsed rate, with a non-zero denominator; it reads the processed frames' pattern and writes the final video. Otherwise the result is the parse error itself. |
| `Pipeline.Answer` | main.py:217-223 | After the loop, the answer is the video file (`video/mp4`, downloaded as `output.mp4`) exactly when the rate parses. Otherwise it is the rate's error. |
| `Pipeline.ReconstructAtProbedRate` | main.py:51-72 | When the probe prints `num/den` for the upload, the encoder is given exactly that rate, and the video is returned. A zero denominator is the one failure. |
| `Pipeline.HandleFrames` | main.py:192-223 | An empty listing answers "No frames extracted" before any frame is touched. When a frame fails, the answer names the first failing frame, `frames[|saved|]`, with the frames before it saved. The error is `Unreadable` only when that frame does not open, and `SizeMismatch` only when it opens at another size than its overlay. Otherwise the answer is the video at the probed rate. |
| `Pipeline.ProcessVideo` | main.py:174-226 | The endpoint for one upload does all of the above for the sorted `.png` listing of that upload, and probes the rate from the uploaded file itself. |

## Left out

- Running ffmpeg and ffprobe (main.py:27-49, 55-72) is left out. The frame listing and the probe's standard output are parameters. An encoder failure goes unnoticed in the source, since `subprocess.run` is not checked, so the model has no encoder error either.
- FastAPI, the HTML home page, the upload copy and `FileResponse` are left out. So is clearing the working directories (main.py:12-25, 177-184). The answer is a `Response` value.
- `add_clean_white_outline` (main.py:75-96) is an opaque pixel function: OpenCV blur, threshold and contours.
- PIL rasterisation, `Image.alpha_composite` and the mode conversions are left out. The composite is an opaque function of the outlined pixels and the overlay's doodles; the size check the compositing does is modelled.
- Python's random generator and its distribution are left out. Draws are an injected stream, and raw values outside a call's range are clamped.
- `FrameRate.ParseFrameRate`: `float()` also accepts decimals, exponents, `inf`, `nan` and digit underscores. The model reads integer fields only, which is what the probe prints for `r_frame_rate`. Those other field forms are reported as `NotANumber`.
- `FrameRate.Fps`: the float division and `str(fps)` in the encoder arguments round. The model passes the exact ratio to the encoder job.
- `Pipeline.ProcessFrames`: the only failures modelled are a frame that does not open and a size mismatch at compositing. A failed save or any other library exception is left out. The exception text `str(e)` of the error body is left out too; the error is a `PipelineError` value.
- Concurrency between requests that share the working directories is left out.
- `Pipeline.PngNames`: the contract states which names the filter keeps and how often, not that it keeps them in listing order. Only the sorted list is used afterwards, and by `Ordering.SortedUnique` that list does not depend on the order.
- `Text.ParseInt`: `float()` also reads decimal digits of other scripts, such as U+0663 ARABIC-INDIC DIGIT THREE, as their ASCII values. The model reads ASCII digits only, which is all the probe prints.
