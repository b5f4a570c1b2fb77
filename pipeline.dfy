/**
 * The `/process` endpoint: the extracted frames are listed and sorted, each
 * one is outlined and composited with a doodle overlay that is redrawn every
 * sixth frame and reused in between, saved under its own name, and the saved
 * frames are handed to the encoder at the rate the probe reports.
 *
 * The file system, the external tools and the image operations are
 * parameters: `extract` stands for the frame listing that the extraction
 * leaves behind, `probe` for the probe's standard output, `load` for opening
 * and converting a frame, `outline` for `add_clean_white_outline` on the
 * pixels and `composite` for the alpha compositing and the conversion back.
 */
module Pipeline {
  import opened Wrappers
  import opened Text
  import opened Ordering
  import opened FrameRate
  import opened Doodles

  /** The pixel data of an image, row by row. */
  type Pixels = seq<int>

  datatype Frame = Frame(width: nat, height: nat, pixels: Pixels)

  /** A transparent overlay with the doodles drawn on it. */
  datatype Overlay = Overlay(width: nat, height: nat, doodles: seq<Doodle>)

  /** A frame written to `path`. */
  datatype Saved = Saved(path: string, frame: Frame)

  /** Why the endpoint answers with an error body instead of the video. */
  datatype PipelineError =
    | NoFrames                    // the listing holds no `.png` file: "No frames extracted"
    | Unreadable(name: string)    // the frame could not be opened
    | SizeMismatch(name: string)  // the cached overlay's size differs from the frame's
    | BadFrameRate(cause: FpsError)

  /** The ffmpeg invocation that assembles the saved frames. */
  datatype EncodeJob = EncodeJob(rate: Rate, inputPattern: string, output: string)

  datatype Response =
    | VideoFile(path: string, mediaType: string, downloadName: string, job: EncodeJob)
    | ErrorBody(error: PipelineError)

  const UploadDir := "uploads"
  const FramesDir := "frames"
  const ProcessedDir := "processed_frames"
  const OutputDir := "output"
  /** Where the encoder writes the video. */
  const FinalVideo := PathJoin(OutputDir, "final_output.mp4")

  /** The encoder's input: the saved frames, numbered with five digits. */
  const ProcessedPattern := ProcessedDir + "/frame_%05d.png"

  /** A new overlay is drawn every this many frames. */
  const FramesPerUpdate: nat := 6

  const Palette: seq<Colour> := ["red", "blue", "green", "yellow", "orange"]

  /**
   * `os.path.join(directory, name)` on POSIX paths: an absolute name replaces
   * the directory, and a `/` is put between the two only when the directory
   * is non-empty and does not already end in one.
   */
  function PathJoin(directory: string, name: string): (path: string)
    ensures |name| > 0 && name[0] == '/' ==> path == name
    ensures (|name| == 0 || name[0] != '/') ==>
      |path| == |directory| + |name| + (if directory == [] || directory[|directory| - 1] == '/' then 0 else 1)
    ensures (|name| == 0 || name[0] != '/') ==> path[|path| - |name|..] == name
    ensures (|name| == 0 || name[0] != '/') && directory != [] && directory[|directory| - 1] != '/' ==>
      path[|directory|] == '/'
    ensures (|name| == 0 || name[0] != '/') ==> path[..|directory|] == directory
  {
    if |name| > 0 && name[0] == '/' then name
    else if directory == [] || directory[|directory| - 1] == '/' then directory + name
    else directory + "/" + name
  }

  /**
   * Two different relative names give two different paths in the same
   * directory, so no frame is read from, or saved over, another's file.
   */
  lemma PathJoinInjective(directory: string, a: string, b: string)
    requires |a| == 0 || a[0] != '/'
    requires |b| == 0 || b[0] != '/'
    requires PathJoin(directory, a) == PathJoin(directory, b)
    ensures a == b
  {
    var p := PathJoin(directory, a);
    assert |a| == |b|;
    assert a == p[|p| - |a|..];
  }

  // ---------------------------------------------------------------------
  // Listing the frames

  /** The names of the listing that end in `.png`, in listing order. */
  function PngNames(listing: seq<string>): (names: seq<string>)
    ensures forall f :: f in names <==> f in listing && EndsWith(f, ".png")
    ensures forall f :: multiset(names)[f] == if EndsWith(f, ".png") then multiset(listing)[f] else 0
    ensures |names| <= |listing|
  {
    if listing == [] then []
    else
      var rest := PngNames(listing[1..]);
      assert listing == [listing[0]] + listing[1..];
      assert forall f :: f in listing <==> f == listing[0] || f in listing[1..];
      assert forall f :: multiset(listing)[f] == multiset([listing[0]])[f] + multiset(listing[1..])[f];
      if EndsWith(listing[0], ".png") then [listing[0]] + rest else rest
  }

  /** `sorted(f for f in listing if f.endswith(".png"))`. */
  function PngFrames(listing: seq<string>): (frames: seq<string>)
    ensures Sorted(frames)
    ensures multiset(frames) == multiset(PngNames(listing))
    ensures forall f :: f in frames <==> f in listing && EndsWith(f, ".png")
  {
    var names := PngNames(listing);
    var frames := Sort(names);
    assert forall f :: f in frames <==> f in multiset(frames);
    assert forall f :: f in names <==> f in multiset(names);
    frames
  }

  // ---------------------------------------------------------------------
  // The overlays

  /** The overlay drawn for a frame of the given size, its draws starting at `pos`. */
  function OverlayFor(width: nat, height: nat, rng: Draws, pos: nat): Overlay {
    Overlay(width, height, Layer(width, height, Palette, rng, pos, Passes))
  }

  /** A fresh overlay for a `width` x `height` frame, as `add_doodles_everywhere` draws it on a transparent layer. */
  method DrawOverlay(width: nat, height: nat, rng: Draws, pos: nat) returns (overlay: Overlay, next: nat)
    ensures overlay == OverlayFor(width, height, rng, pos)
    ensures next == Start(rng, pos, Passes)
  {
    var doodles;
    doodles, next := AddDoodlesEverywhere(width, height, Palette, rng, pos);
    overlay := Overlay(width, height, doodles);
  }

  /** The draw position at which overlay `g` starts: each overlay takes 120 passes. */
  function OverlayStart(rng: Draws, pos: nat, g: nat): (at: nat)
    ensures at >= pos + 5 * Passes * g
  {
    if g == 0 then pos else Start(rng, OverlayStart(rng, pos, g - 1), Passes)
  }

  /** The frame `load` gives for the listed name, when it opens. */
  function Loaded(load: string -> Option<Frame>, name: string): Option<Frame> {
    load(PathJoin(FramesDir, name))
  }

  /** The frame as it is saved: outlined, then composited with the overlay. */
  function Stylized(f: Frame, overlay: Overlay, outline: Pixels -> Pixels, composite: (Pixels, seq<Doodle>) -> Pixels): Frame {
    Frame(f.width, f.height, composite(outline(f.pixels), overlay.doodles))
  }

  /** Overlay `o` is the one drawn for frame 6g: at that frame's size, from the g-th draw position. */
  predicate DrawnAs(frames: seq<string>, load: string -> Option<Frame>, rng: Draws, pos: nat, g: nat, o: Overlay) {
    FramesPerUpdate * g < |frames| &&
    Loaded(load, frames[FramesPerUpdate * g]).Some? &&
    var f := Loaded(load, frames[FramesPerUpdate * g]).value;
    o == OverlayFor(f.width, f.height, rng, OverlayStart(rng, pos, g))
  }

  /** Every overlay g was drawn for frame 6g (`DrawnAs`), stated one appended overlay at a time. */
  predicate OverlaysDrawn(frames: seq<string>, load: string -> Option<Frame>, rng: Draws, pos: nat, overlays: seq<Overlay>)
    decreases |overlays|
  {
    overlays == [] ||
    (OverlaysDrawn(frames, load, rng, pos, overlays[..|overlays| - 1]) &&
     DrawnAs(frames, load, rng, pos, |overlays| - 1, overlays[|overlays| - 1]))
  }

  /** Record `s` is frame i saved under its own name, stylized with overlay i / 6 of the same size. */
  predicate SavedAs(frames: seq<string>, load: string -> Option<Frame>, outline: Pixels -> Pixels,
                    composite: (Pixels, seq<Doodle>) -> Pixels, overlays: seq<Overlay>, i: nat, s: Saved) {
    i < |frames| &&
    i / FramesPerUpdate < |overlays| &&
    Loaded(load, frames[i]).Some? &&
    var f := Loaded(load, frames[i]).value;
    var overlay := overlays[i / FramesPerUpdate];
    overlay.width == f.width && overlay.height == f.height &&
    s == Saved(PathJoin(ProcessedDir, frames[i]), Stylized(f, overlay, outline, composite))
  }

  /** Every record i is frame i as `SavedAs` describes it, stated one appended record at a time. */
  predicate FramesSaved(frames: seq<string>, load: string -> Option<Frame>, outline: Pixels -> Pixels,
                        composite: (Pixels, seq<Doodle>) -> Pixels, overlays: seq<Overlay>, saved: seq<Saved>)
    decreases |saved|
  {
    saved == [] ||
    (FramesSaved(frames, load, outline, composite, overlays, saved[..|saved| - 1]) &&
     SavedAs(frames, load, outline, composite, overlays, |saved| - 1, saved[|saved| - 1]))
  }

  /** Overlay g of a drawn list is the one drawn for frame 6g. */
  lemma {:induction false} DrawnAt(frames: seq<string>, load: string -> Option<Frame>, rng: Draws, pos: nat,
                                   overlays: seq<Overlay>, g: nat)
    requires OverlaysDrawn(frames, load, rng, pos, overlays) && g < |overlays|
    ensures DrawnAs(frames, load, rng, pos, g, overlays[g])
    decreases |overlays|
  {
    if g < |overlays| - 1 {
      DrawnAt(frames, load, rng, pos, overlays[..|overlays| - 1], g);
    }
  }

  /** Record i of a saved list is frame i, stylized with overlay i / 6; no more records than frames. */
  lemma {:induction false} SavedAt(frames: seq<string>, load: string -> Option<Frame>, outline: Pixels -> Pixels,
                                   composite: (Pixels, seq<Doodle>) -> Pixels, overlays: seq<Overlay>, saved: seq<Saved>, i: nat)
    requires FramesSaved(frames, load, outline, composite, overlays, saved) && i < |saved|
    ensures |saved| <= |frames|
    ensures SavedAs(frames, load, outline, composite, overlays, i, saved[i])
    decreases |saved|
  {
    if i < |saved| - 1 {
      SavedAt(frames, load, outline, composite, overlays, saved[..|saved| - 1], i);
    }
  }

  /** The width and height of a frame that opened. */
  function SizeOf(image: Option<Frame>): (nat, nat) {
    if image.Some? then (image.value.width, image.value.height) else (0, 0)
  }

  /** Every listed frame opens, and all have the same size. */
  predicate Uniform(frames: seq<string>, load: string -> Option<Frame>) {
    forall i :: 0 <= i < |frames| ==>
      Loaded(load, frames[i]).Some? && SizeOf(Loaded(load, frames[i])) == SizeOf(Loaded(load, frames[0]))
  }

  /** Saving frame |saved| with the overlay of its group keeps `FramesSaved`. */
  lemma SavedStep(frames: seq<string>, load: string -> Option<Frame>, outline: Pixels -> Pixels,
                  composite: (Pixels, seq<Doodle>) -> Pixels, overlays: seq<Overlay>, saved: seq<Saved>, s: Saved)
    requires FramesSaved(frames, load, outline, composite, overlays, saved)
    requires SavedAs(frames, load, outline, composite, overlays, |saved|, s)
    ensures FramesSaved(frames, load, outline, composite, overlays, saved + [s])
  {
    assert (saved + [s])[..|saved|] == saved;
  }

  /** Drawing another overlay keeps what is known of the saved frames. */
  lemma {:induction false} SavedExtend(frames: seq<string>, load: string -> Option<Frame>, outline: Pixels -> Pixels,
                                       composite: (Pixels, seq<Doodle>) -> Pixels, overlays: seq<Overlay>, drawn: Overlay, saved: seq<Saved>)
    requires FramesSaved(frames, load, outline, composite, overlays, saved)
    ensures FramesSaved(frames, load, outline, composite, overlays + [drawn], saved)
    decreases |saved|
  {
    if saved != [] {
      var i := |saved| - 1;
      SavedExtend(frames, load, outline, composite, overlays, drawn, saved[..i]);
      assert (overlays + [drawn])[i / FramesPerUpdate] == overlays[i / FramesPerUpdate];
    }
  }

  /** The overlay drawn for frame 6g, where g is the number drawn so far, keeps `OverlaysDrawn`. */
  lemma DrawnStep(frames: seq<string>, load: string -> Option<Frame>, rng: Draws, pos: nat, overlays: seq<Overlay>, o: Overlay)
    requires OverlaysDrawn(frames, load, rng, pos, overlays)
    requires DrawnAs(frames, load, rng, pos, |overlays|, o)
    ensures OverlaysDrawn(frames, load, rng, pos, overlays + [o])
  {
    assert (overlays + [o])[..|overlays|] == overlays;
  }

  /** In a uniform listing, frame i has the size of frame 0. */
  lemma UniformAt(frames: seq<string>, load: string -> Option<Frame>, i: nat)
    requires Uniform(frames, load) && i < |frames|
    ensures Loaded(load, frames[i]).Some?
    ensures SizeOf(Loaded(load, frames[i])) == SizeOf(Loaded(load, frames[0]))
  {
  }

  /**
   * Every overlay takes the size of the frame it was drawn for, so when all
   * frames open at one size, no frame meets an overlay of another size.
   */
  lemma MismatchBreaksUniform(frames: seq<string>, load: string -> Option<Frame>, rng: Draws, pos: nat,
                              overlays: seq<Overlay>, i: nat)
    requires OverlaysDrawn(frames, load, rng, pos, overlays)
    requires i < |frames| && i / FramesPerUpdate < |overlays|
    requires (overlays[i / FramesPerUpdate].width, overlays[i / FramesPerUpdate].height) != SizeOf(Loaded(load, frames[i]))
    ensures !Uniform(frames, load)
  {
    if Uniform(frames, load) {
      var g := i / FramesPerUpdate;
      DrawnAt(frames, load, rng, pos, overlays, g);
      UniformAt(frames, load, i);
      UniformAt(frames, load, FramesPerUpdate * g);
      assert false;
    }
  }

  /**
   * What holds before frame i of the loop: frames 0 .. i-1 saved, one overlay
   * per started group of six, the cache holding the newest one, and the draw
   * position right after it.
   */
  predicate LoopState(frames: seq<string>, load: string -> Option<Frame>, outline: Pixels -> Pixels,
                      composite: (Pixels, seq<Doodle>) -> Pixels, rng: Draws, pos: nat,
                      i: nat, saved: seq<Saved>, overlays: seq<Overlay>, cache: Option<Overlay>, next: nat) {
    i <= |frames| &&
    |saved| == i &&
    |overlays| == (i + FramesPerUpdate - 1) / FramesPerUpdate &&
    cache == (if i == 0 then None else Some(overlays[(i - 1) / FramesPerUpdate])) &&
    FramesSaved(frames, load, outline, composite, overlays, saved) &&
    OverlaysDrawn(frames, load, rng, pos, overlays) &&
    next == OverlayStart(rng, pos, |overlays|)
  }

  /** After the cache step for frame i: the cache holds overlay i / 6, the newest one. */
  predicate Refreshed(frames: seq<string>, load: string -> Option<Frame>, outline: Pixels -> Pixels,
                      composite: (Pixels, seq<Doodle>) -> Pixels, rng: Draws, pos: nat,
                      i: nat, saved: seq<Saved>, overlays: seq<Overlay>, cache: Option<Overlay>, next: nat) {
    |overlays| == i / FramesPerUpdate + 1 &&
    cache == Some(overlays[i / FramesPerUpdate]) &&
    FramesSaved(frames, load, outline, composite, overlays, saved) &&
    OverlaysDrawn(frames, load, rng, pos, overlays) &&
    next == OverlayStart(rng, pos, |overlays|)
  }

  /** The first frame of a group of six: a new overlay of the frame's size, drawn from `next`. */
  method DrawGroupOverlay(frames: seq<string>, load: string -> Option<Frame>, outline: Pixels -> Pixels,
                          composite: (Pixels, seq<Doodle>) -> Pixels, rng: Draws, pos: nat,
                          i: nat, saved: seq<Saved>, overlays: seq<Overlay>, cache: Option<Overlay>, next: nat, f: Frame)
    returns (overlays': seq<Overlay>, cache': Option<Overlay>, next': nat)
    requires i < |frames| && Loaded(load, frames[i]) == Some(f) && i % FramesPerUpdate == 0
    requires LoopState(frames, load, outline, composite, rng, pos, i, saved, overlays, cache, next)
    ensures Refreshed(frames, load, outline, composite, rng, pos, i, saved, overlays', cache', next')
    ensures overlays' == overlays + [OverlayFor(f.width, f.height, rng, next)]
  {
    assert |overlays| == i / FramesPerUpdate && FramesPerUpdate * |overlays| == i;
    var drawn;
    drawn, next' := DrawOverlay(f.width, f.height, rng, next);
    SavedExtend(frames, load, outline, composite, overlays, drawn, saved);
    DrawnStep(frames, load, rng, pos, overlays, drawn);
    cache' := Some(drawn);
    overlays' := overlays + [drawn];
    assert next' == OverlayStart(rng, pos, |overlays'|);
  }

  /** Any other frame: the cached overlay is the one drawn for its group. */
  lemma ReuseOverlay(frames: seq<string>, load: string -> Option<Frame>, outline: Pixels -> Pixels,
                     composite: (Pixels, seq<Doodle>) -> Pixels, rng: Draws, pos: nat,
                     i: nat, saved: seq<Saved>, overlays: seq<Overlay>, cache: Option<Overlay>, next: nat)
    requires i < |frames| && i % FramesPerUpdate != 0
    requires LoopState(frames, load, outline, composite, rng, pos, i, saved, overlays, cache, next)
    ensures cache.Some?
    ensures Refreshed(frames, load, outline, composite, rng, pos, i, saved, overlays, cache, next)
  {
    assert (i - 1) / FramesPerUpdate == i / FramesPerUpdate;
  }

  /**
   * The cache step for frame i, which opened as `f`: a new overlay when i is
   * a multiple of six or nothing is cached yet, otherwise the cached one.
   * The second test only matters before the first frame, where the first
   * already holds.
   */
  method RefreshOverlay(frames: seq<string>, load: string -> Option<Frame>, outline: Pixels -> Pixels,
                        composite: (Pixels, seq<Doodle>) -> Pixels, rng: Draws, pos: nat,
                        i: nat, saved: seq<Saved>, overlays: seq<Overlay>, cache: Option<Overlay>, next: nat, f: Frame)
    returns (overlays': seq<Overlay>, cache': Option<Overlay>, next': nat)
    requires i < |frames| && Loaded(load, frames[i]) == Some(f)
    requires LoopState(frames, load, outline, composite, rng, pos, i, saved, overlays, cache, next)
    ensures Refreshed(frames, load, outline, composite, rng, pos, i, saved, overlays', cache', next')
    ensures i % FramesPerUpdate == 0 ==> overlays' == overlays + [OverlayFor(f.width, f.height, rng, next)]
    ensures i % FramesPerUpdate != 0 ==> overlays' == overlays && cache' == cache && next' == next
  {
    if i % FramesPerUpdate == 0 || cache.None? {
      overlays', cache', next' := DrawGroupOverlay(frames, load, outline, composite, rng, pos, i, saved, overlays, cache, next, f);
    } else {
      ReuseOverlay(frames, load, outline, composite, rng, pos, i, saved, overlays, cache, next);
      overlays', cache', next' := overlays, cache, next;
    }
  }

  /**
   * The rest of the loop body once frame i opened as `f` and the cache step
   * ran: stop if the cached overlay has another size, otherwise outline the
   * frame, composite it with the overlay and save it.
   */
  method ComposeFrame(frames: seq<string>, load: string -> Option<Frame>, outline: Pixels -> Pixels,
                      composite: (Pixels, seq<Doodle>) -> Pixels, rng: Draws, pos: nat,
                      i: nat, saved: seq<Saved>, overlays: seq<Overlay>, cache: Option<Overlay>, next: nat, f: Frame)
    returns (saved': seq<Saved>, failure: Option<PipelineError>)
    requires i < |frames| && |saved| == i && Loaded(load, frames[i]) == Some(f)
    requires Refreshed(frames, load, outline, composite, rng, pos, i, saved, overlays, cache, next)
    ensures failure.None? ==> LoopState(frames, load, outline, composite, rng, pos, i + 1, saved', overlays, cache, next)
    ensures failure.Some? ==>
      failure == Some(SizeMismatch(frames[i])) && saved' == saved &&
      (overlays[i / FramesPerUpdate].width, overlays[i / FramesPerUpdate].height) != SizeOf(Loaded(load, frames[i])) &&
      !Uniform(frames, load)
  {
    saved', failure := saved, None;
    var overlay := cache.value;
    if overlay.width != f.width || overlay.height != f.height {
      MismatchBreaksUniform(frames, load, rng, pos, overlays, i);
      failure := Some(SizeMismatch(frames[i]));
      return;
    }
    var outlined := outline(f.pixels);
    var record := Saved(PathJoin(ProcessedDir, frames[i]), Frame(f.width, f.height, composite(outlined, overlay.doodles)));
    SavedStep(frames, load, outline, composite, overlays, saved, record);
    saved' := saved + [record];
    assert (i + 1 + FramesPerUpdate - 1) / FramesPerUpdate == i / FramesPerUpdate + 1;
    assert i / FramesPerUpdate == (i + 1 - 1) / FramesPerUpdate;
  }

  /**
   * One pass of the loop body on frame i: open it, redraw the overlay when i
   * is a multiple of six (or nothing is cached yet), outline it, composite it
   * with the cached overlay and save it.
   */
  method StylizeFrame(frames: seq<string>, load: string -> Option<Frame>, outline: Pixels -> Pixels,
                      composite: (Pixels, seq<Doodle>) -> Pixels, rng: Draws, pos: nat,
                      i: nat, saved: seq<Saved>, overlays: seq<Overlay>, cache: Option<Overlay>, next: nat)
    returns (saved': seq<Saved>, overlays': seq<Overlay>, cache': Option<Overlay>, next': nat, failure: Option<PipelineError>)
    requires i < |frames|
    requires LoopState(frames, load, outline, composite, rng, pos, i, saved, overlays, cache, next)
    ensures failure.None? ==> LoopState(frames, load, outline, composite, rng, pos, i + 1, saved', overlays', cache', next')
    ensures failure == Some(Unreadable(frames[i])) ==>
      Loaded(load, frames[i]).None? && saved' == saved && overlays' == overlays && next' == next
    ensures failure.Some? && failure.value.SizeMismatch? ==>
      failure == Some(SizeMismatch(frames[i])) && saved' == saved && Loaded(load, frames[i]).Some? &&
      FramesSaved(frames, load, outline, composite, overlays', saved) &&
      OverlaysDrawn(frames, load, rng, pos, overlays') &&
      next' == OverlayStart(rng, pos, |overlays'|) &&
      |overlays'| == i / FramesPerUpdate + 1 &&
      (overlays'[i / FramesPerUpdate].width, overlays'[i / FramesPerUpdate].height) != SizeOf(Loaded(load, frames[i])) &&
      !Uniform(frames, load)
    ensures failure.Some? ==> failure == Some(Unreadable(frames[i])) || failure == Some(SizeMismatch(frames[i]))
  {
    saved', overlays', cache', next', failure := saved, overlays, cache, next, None;
    var image := load(PathJoin(FramesDir, frames[i]));
    if image.None? {
      failure := Some(Unreadable(frames[i]));
      return;
    }
    var f := image.value;
    overlays', cache', next' := RefreshOverlay(frames, load, outline, composite, rng, pos, i, saved, overlays, cache, next, f);
    saved', failure := ComposeFrame(frames, load, outline, composite, rng, pos, i, saved, overlays', cache', next', f);
  }

  /**
   * The frame loop of `process_video`. It stops at the first frame that
   * cannot be opened or whose cached overlay has another size; the frames
   * before it are saved.
   */
  method ProcessFrames(frames: seq<string>, load: string -> Option<Frame>, outline: Pixels -> Pixels,
                       composite: (Pixels, seq<Doodle>) -> Pixels, rng: Draws, pos: nat)
    returns (saved: seq<Saved>, overlays: seq<Overlay>, failure: Option<PipelineError>, next: nat)
    ensures FramesSaved(frames, load, outline, composite, overlays, saved)
    ensures OverlaysDrawn(frames, load, rng, pos, overlays)
    ensures next == OverlayStart(rng, pos, |overlays|)
    ensures failure.None? <==> |saved| == |frames|
    ensures failure.None? ==> |overlays| == (|frames| + FramesPerUpdate - 1) / FramesPerUpdate
    ensures failure.Some? && failure.value.Unreadable? ==>
      failure.value.name == frames[|saved|] && Loaded(load, frames[|saved|]).None? &&
      |overlays| == (|saved| + FramesPerUpdate - 1) / FramesPerUpdate
    ensures failure.Some? && failure.value.SizeMismatch? ==>
      failure.value.name == frames[|saved|] && Loaded(load, frames[|saved|]).Some? &&
      |overlays| == |saved| / FramesPerUpdate + 1 &&
      (overlays[|saved| / FramesPerUpdate].width, overlays[|saved| / FramesPerUpdate].height) !=
      SizeOf(Loaded(load, frames[|saved|]))
    ensures failure.Some? ==> failure.value.Unreadable? || failure.value.SizeMismatch?
    ensures Uniform(frames, load) ==> failure.None?
  {
    saved, overlays, failure, next := [], [], None, pos;
    var cache: Option<Overlay> := None;
    for i := 0 to |frames|
      invariant LoopState(frames, load, outline, composite, rng, pos, i, saved, overlays, cache, next)
    {
      var saved', overlays', cache', next', failed := StylizeFrame(frames, load, outline, composite, rng, pos,
                                                                  i, saved, overlays, cache, next);
      if failed.Some? {
        saved, overlays, next, failure := saved', overlays', next', failed;
        return;
      }
      saved, overlays, cache, next := saved', overlays', cache', next';
    }
  }

  /** The first frame of frame i's group of six is frame i - i % 6. */
  lemma GroupStart(i: nat)
    ensures FramesPerUpdate * (i / FramesPerUpdate) == i - i % FramesPerUpdate
  {
  }

  /**
   * Frame i is saved under its own name and composited with the overlay
   * drawn at the first frame of its group of six (frame i - i % 6, see
   * `GroupStart`): at that frame's size, from the draw position where the
   * previous overlays stopped.
   */
  lemma CompositedWithGroupOverlay(frames: seq<string>, load: string -> Option<Frame>, outline: Pixels -> Pixels,
                                   composite: (Pixels, seq<Doodle>) -> Pixels, rng: Draws, pos: nat,
                                   saved: seq<Saved>, overlays: seq<Overlay>, i: nat)
    requires FramesSaved(frames, load, outline, composite, overlays, saved)
    requires OverlaysDrawn(frames, load, rng, pos, overlays)
    requires i < |saved|
    ensures i < |frames| && FramesPerUpdate * (i / FramesPerUpdate) < |frames|
    ensures Loaded(load, frames[i]).Some? && Loaded(load, frames[FramesPerUpdate * (i / FramesPerUpdate)]).Some?
    ensures var f := Loaded(load, frames[i]).value;
      var first := Loaded(load, frames[FramesPerUpdate * (i / FramesPerUpdate)]).value;
      var overlay := OverlayFor(first.width, first.height, rng, OverlayStart(rng, pos, i / FramesPerUpdate));
      first.width == f.width && first.height == f.height &&
      saved[i] == Saved(PathJoin(ProcessedDir, frames[i]), Stylized(f, overlay, outline, composite))
  {
    SavedAt(frames, load, outline, composite, overlays, saved, i);
    DrawnAt(frames, load, rng, pos, overlays, i / FramesPerUpdate);
  }

  /** The saved frames follow the listing: record i is written under frame i's own name. */
  lemma SavedInOrder(frames: seq<string>, load: string -> Option<Frame>, outline: Pixels -> Pixels,
                     composite: (Pixels, seq<Doodle>) -> Pixels, overlays: seq<Overlay>, saved: seq<Saved>)
    requires FramesSaved(frames, load, outline, composite, overlays, saved)
    ensures |saved| <= |frames|
    ensures forall i :: 0 <= i < |saved| ==> saved[i].path == PathJoin(ProcessedDir, frames[i])
  {
    forall i | 0 <= i < |saved|
      ensures saved[i].path == PathJoin(ProcessedDir, frames[i])
    {
      SavedAt(frames, load, outline, composite, overlays, saved, i);
    }
    if saved != [] {
      SavedAt(frames, load, outline, composite, overlays, saved, 0);
    }
  }

  /** Every overlay holds 120 well-formed doodles in the palette's colours, inside its frame's bounds. */
  lemma DrawnOverlayShape(frames: seq<string>, load: string -> Option<Frame>, rng: Draws, pos: nat,
                          overlays: seq<Overlay>, g: nat)
    requires OverlaysDrawn(frames, load, rng, pos, overlays) && g < |overlays|
    ensures |overlays[g].doodles| == Passes
    ensures forall d :: d in overlays[g].doodles ==> WellFormed(d, overlays[g].width, overlays[g].height, Palette)
  {
    DrawnAt(frames, load, rng, pos, overlays, g);
    var o := overlays[g];
    LayerWellFormed(o.width, o.height, Palette, rng, OverlayStart(rng, pos, g), Passes);
  }

  // ---------------------------------------------------------------------
  // Encoding and the endpoint

  /**
   * `reconstruct_video`: the encoder job for the saved frames at the rate the
   * probe reports for the uploaded video, or the reason that rate cannot be read.
   */
  function ReconstructVideo(probe: string -> string, videoPath: string): (r: Result<EncodeJob, FpsError>)
    ensures r.Ok? <==> ParseFrameRate(probe(videoPath)).Ok?
    ensures r.Ok? ==> r.value.inputPattern == ProcessedPattern && r.value.output == FinalVideo && r.value.rate.den != 0
    ensures r.Ok? ==> r.value.rate == ParseFrameRate(probe(videoPath)).value
    ensures r.Err? ==> r.error == ParseFrameRate(probe(videoPath)).error
  {
    match ParseFrameRate(probe(videoPath))
    case Err(e) => Err(e)
    case Ok(rate) => Ok(EncodeJob(rate, ProcessedPattern, FinalVideo))
  }

  /** The endpoint's answer once every frame was saved. */
  function Answer(probe: string -> string, videoPath: string): (response: Response)
    ensures response.VideoFile? <==> ReconstructVideo(probe, videoPath).Ok?
    ensures response.VideoFile? ==>
      response.path == FinalVideo && response.mediaType == "video/mp4" && response.downloadName == "output.mp4" &&
      response.job == ReconstructVideo(probe, videoPath).value
    ensures response.ErrorBody? ==> response.error == BadFrameRate(ReconstructVideo(probe, videoPath).error)
  {
    match ReconstructVideo(probe, videoPath)
    case Err(e) => ErrorBody(BadFrameRate(e))
    case Ok(job) => VideoFile(FinalVideo, "video/mp4", "output.mp4", job)
  }

  /**
   * When the probe prints `num/den` (whitespace around it or not), the encoder
   * is given exactly that rate; only a zero denominator fails.
   */
  lemma ReconstructAtProbedRate(probe: string -> string, videoPath: string, pre: string, rate: Rate, post: string)
    requires AllSpace(pre) && AllSpace(post)
    requires probe(videoPath) == pre + ProbeText(rate) + post
    ensures ReconstructVideo(probe, videoPath) ==
      if rate.den == 0 then Err(ZeroDenominator) else Ok(EncodeJob(rate, ProcessedPattern, FinalVideo))
    ensures Answer(probe, videoPath) ==
      if rate.den == 0 then ErrorBody(BadFrameRate(ZeroDenominator))
      else VideoFile(FinalVideo, "video/mp4", "output.mp4", EncodeJob(rate, ProcessedPattern, FinalVideo))
  {
    ParseProbeText(pre, rate, post);
  }

  /**
   * What the endpoint leaves behind for the sorted frame listing `frames` of
   * the upload stored at `videoPath`: the answer, the saved frames and the
   * overlays drawn.
   */
  predicate Handled(frames: seq<string>, videoPath: string, probe: string -> string,
                    load: string -> Option<Frame>, outline: Pixels -> Pixels,
                    composite: (Pixels, seq<Doodle>) -> Pixels, rng: Draws, pos: nat,
                    response: Response, saved: seq<Saved>, overlays: seq<Overlay>) {
    && (response == ErrorBody(NoFrames) <==> frames == [])
    && (frames == [] ==> saved == [] && overlays == [])
    && FramesSaved(frames, load, outline, composite, overlays, saved)
    && OverlaysDrawn(frames, load, rng, pos, overlays)
    && (response.ErrorBody? && (response.error.Unreadable? || response.error.SizeMismatch?) <==>
        frames != [] && |saved| < |frames|)
    && (response.ErrorBody? && response.error.Unreadable? ==>
        |saved| < |frames| && response.error.name == frames[|saved|] && Loaded(load, frames[|saved|]).None?)
    && (response.ErrorBody? && response.error.SizeMismatch? ==>
        |saved| < |frames| && response.error.name == frames[|saved|] && Loaded(load, frames[|saved|]).Some? &&
        |overlays| == |saved| / FramesPerUpdate + 1 &&
        (overlays[|saved| / FramesPerUpdate].width, overlays[|saved| / FramesPerUpdate].height) !=
        SizeOf(Loaded(load, frames[|saved|])))
    && (response.ErrorBody? && response.error.BadFrameRate? ==> |saved| == |frames|)
    && (frames != [] && |saved| == |frames| ==>
        |overlays| == (|frames| + FramesPerUpdate - 1) / FramesPerUpdate &&
        response == Answer(probe, videoPath))
    && (frames != [] && Uniform(frames, load) ==> |saved| == |frames|)
  }

  /** Everything `process_video` does once the frames are listed: refuse an empty list, stylize, encode. */
  method HandleFrames(frames: seq<string>, videoPath: string, probe: string -> string,
                      load: string -> Option<Frame>, outline: Pixels -> Pixels,
                      composite: (Pixels, seq<Doodle>) -> Pixels, rng: Draws, pos: nat)
    returns (response: Response, saved: seq<Saved>, overlays: seq<Overlay>)
    ensures Handled(frames, videoPath, probe, load, outline, composite, rng, pos, response, saved, overlays)
  {
    if |frames| == 0 {
      response, saved, overlays := ErrorBody(NoFrames), [], [];
      return;
    }
    var failure, next;
    saved, overlays, failure, next := ProcessFrames(frames, load, outline, composite, rng, pos);
    if failure.Some? {
      response := ErrorBody(failure.value);
      return;
    }
    response := Answer(probe, videoPath);
  }

  /**
   * `process_video` for an upload named `filename`: the frames `extract`
   * lists for the stored upload are sorted, stylized one by one and saved,
   * and the video is encoded from them, at the rate probed from the upload
   * itself. Every failure becomes an error body.
   */
  method ProcessVideo(filename: string, extract: string -> seq<string>, probe: string -> string,
                      load: string -> Option<Frame>, outline: Pixels -> Pixels,
                      composite: (Pixels, seq<Doodle>) -> Pixels, rng: Draws, pos: nat)
    returns (response: Response, saved: seq<Saved>, overlays: seq<Overlay>)
    ensures Handled(PngFrames(extract(PathJoin(UploadDir, filename))), PathJoin(UploadDir, filename), probe,
                    load, outline, composite, rng, pos, response, saved, overlays)
  {
    var videoPath := PathJoin(UploadDir, filename);
    var frames := PngFrames(extract(videoPath));
    response, saved, overlays := HandleFrames(frames, videoPath, probe, load, outline, composite, rng, pos);
  }
}
