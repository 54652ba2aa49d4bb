/**
 * The captcha module of the scraper: detecting captcha markup on the page and
 * trying a fixed chain of heuristic strategies, then a manual-solve wait.
 *
 * The browser is an oracle. A `Document` says which CSS selectors match the
 * page (or a frame inside it) and the bounding box of the elements that have
 * one. The solver's clicks and waits have no modelled effect beyond the
 * snapshots the oracle hands out; the puzzle strategies' mouse gestures are
 * returned as sequences of events.
 */
module CaptchaSolver {
  import opened Wrappers
  import opened Text

  type Selector = string

  /** One rendering of the page, or of a frame inside it, as far as the solver queries it. */
  datatype Document = Document(matching: set<Selector>, boxed: map<Selector, Box>)

  /** A bounding box as Playwright reports it: left edge, top edge, width and height, in pixels. */
  datatype Box = Box(x: real, y: real, width: real, height: real)

  /** What `bounding_box()` gives for the element a selector finds. */
  function BoxOf(d: Document, s: Selector): (b: Option<Box>)
    ensures b.Some? <==> s in d.boxed
    ensures b.Some? ==> b.value == d.boxed[s]
  {
    if s in d.boxed then Some(d.boxed[s]) else None
  }

  // ---------------------------------------------------------------------------
  // Detection

  /** The markers `detect_captcha` probes, in probing order. */
  const CaptchaSelectors: seq<Selector> := [
    "iframe[src*=\"captcha\"]",
    "div[id*=\"captcha\"]",
    "div[class*=\"captcha\"]",
    "div[class*=\"challenge\"]",
    "div[class*=\"puzzle\"]",
    "canvas[id*=\"captcha\"]",
    "img[src*=\"captcha\"]",
    "[data-test-id*=\"captcha\"]",
    ".recaptcha-checkbox",
    "#recaptcha",
    "iframe[title*=\"reCAPTCHA\"]",
    "div[class*=\"hcaptcha\"]",
    "iframe[src*=\"hcaptcha\"]"
  ]

  /** Some marker selector matches the document. */
  predicate CaptchaPresent(d: Document) {
    exists i | 0 <= i < |CaptchaSelectors| :: CaptchaSelectors[i] in d.matching
  }

  /**
   * `detect_captcha`: probes the markers in order and stops at the first that
   * matches; `probes` is the number of `query_selector` calls it made.
   */
  method DetectCaptcha(d: Document) returns (found: bool, probes: nat)
    ensures found <==> CaptchaPresent(d)
    ensures probes <= |CaptchaSelectors|
    ensures found ==> 0 < probes && CaptchaSelectors[probes - 1] in d.matching
    ensures found ==> forall i :: 0 <= i < probes - 1 ==> CaptchaSelectors[i] !in d.matching
    ensures !found ==> probes == |CaptchaSelectors|
  {
    probes := 0;
    while probes < |CaptchaSelectors|
      invariant probes <= |CaptchaSelectors|
      invariant forall i :: 0 <= i < probes ==> CaptchaSelectors[i] !in d.matching
    {
      var selector := CaptchaSelectors[probes];
      probes := probes + 1;
      if selector in d.matching {
        return true, probes;
      }
    }
    found := false;
  }

  // ---------------------------------------------------------------------------
  // Challenge instructions

  /** The objects `extract_target_from_instruction` looks for, in its order. */
  const CommonTargets: seq<string> := [
    "traffic lights", "cars", "bicycles", "crosswalks", "buses",
    "motorcycles", "trucks", "fire hydrants", "parking meters",
    "boats", "bridges", "mountains", "trees", "flowers"
  ]

  /** The entries of `ts` that occur in `text`, in their order in `ts`. */
  function Occurring(ts: seq<string>, text: string): seq<string> {
    if ts == [] then []
    else
      var last := ts[|ts| - 1];
      Occurring(ts[..|ts| - 1], text) + (if Contains(text, last) then [last] else [])
  }

  /** The targets named by a challenge instruction, whatever its letter case. */
  function TargetsIn(instruction: string): seq<string> {
    Occurring(CommonTargets, Lower(instruction))
  }

  /** `extract_target_from_instruction`: lowers the instruction and collects the targets it mentions. */
  method ExtractTargetFromInstruction(instruction: string) returns (targets: seq<string>)
    ensures targets == TargetsIn(instruction)
  {
    var text := Lower(instruction);
    targets := [];
    for i := 0 to |CommonTargets|
      invariant targets == Occurring(CommonTargets[..i], text)
    {
      var target := CommonTargets[i];
      if Contains(text, target) {
        targets := targets + [target];
      }
      assert CommonTargets[..i + 1][..i] == CommonTargets[..i];
    }
    assert CommonTargets[..|CommonTargets|] == CommonTargets;
  }

  ghost predicate IsSubsequence<T>(xs: seq<T>, ys: seq<T>)
    decreases |ys|
  {
    || xs == []
    || (ys != [] && xs[|xs| - 1] == ys[|ys| - 1] && IsSubsequence(xs[..|xs| - 1], ys[..|ys| - 1]))
    || (ys != [] && IsSubsequence(xs, ys[..|ys| - 1]))
  }

  predicate NoDuplicates<T(==)>(xs: seq<T>) {
    forall i, j :: 0 <= i < j < |xs| ==> xs[i] != xs[j]
  }

  lemma {:induction false} OccurringMembers(ts: seq<string>, text: string, t: string)
    ensures t in Occurring(ts, text) <==> t in ts && Contains(text, t)
  {
    if ts != [] {
      var init := ts[..|ts| - 1];
      OccurringMembers(init, text, t);
      assert ts == init + [ts[|ts| - 1]];
    }
  }

  lemma {:induction false} OccurringIsSubsequence(ts: seq<string>, text: string)
    ensures IsSubsequence(Occurring(ts, text), ts)
  {
    if ts != [] {
      var init := ts[..|ts| - 1];
      OccurringIsSubsequence(init, text);
      var r := Occurring(ts, text);
      if Contains(text, ts[|ts| - 1]) {
        assert r[..|r| - 1] == Occurring(init, text);
      } else if r != [] {
        assert r == Occurring(init, text);
      }
    }
  }

  lemma {:induction false} OccurringNoDuplicates(ts: seq<string>, text: string)
    requires NoDuplicates(ts)
    ensures NoDuplicates(Occurring(ts, text))
  {
    if ts != [] {
      var init := ts[..|ts| - 1];
      var last := ts[|ts| - 1];
      OccurringNoDuplicates(init, text);
      OccurringMembers(init, text, last);
      assert last !in init;
    }
  }

  lemma CommonTargetsDistinct()
    ensures NoDuplicates(CommonTargets)
  {
  }

  /**
   * What `extract_target_from_instruction` returns: exactly the common targets
   * that occur in the lowered instruction, in the order of the target list,
   * each at most once; nothing when the instruction names none of them.
   */
  lemma TargetsInSpec(instruction: string)
    ensures forall t :: t in TargetsIn(instruction) <==> t in CommonTargets && Contains(Lower(instruction), t)
    ensures IsSubsequence(TargetsIn(instruction), CommonTargets)
    ensures NoDuplicates(TargetsIn(instruction))
    ensures TargetsIn(instruction) == [] <==> forall t :: t in CommonTargets ==> !Contains(Lower(instruction), t)
  {
    var text := Lower(instruction);
    forall t ensures t in TargetsIn(instruction) <==> t in CommonTargets && Contains(text, t) {
      OccurringMembers(CommonTargets, text, t);
    }
    OccurringIsSubsequence(CommonTargets, text);
    CommonTargetsDistinct();
    OccurringNoDuplicates(CommonTargets, text);
    if TargetsIn(instruction) != [] {
      assert TargetsIn(instruction)[0] in TargetsIn(instruction);
    }
  }

  /** Matching ignores letter case: an instruction and its lowered form name the same targets. */
  lemma TargetsIgnoreCase(instruction: string)
    ensures TargetsIn(Lower(instruction)) == TargetsIn(instruction)
  {
    LowerIsLower(instruction);
  }

  // ---------------------------------------------------------------------------
  // reCAPTCHA v2

  const RecaptchaFrame: Selector := "iframe[src*=\"recaptcha\"]"
  const Checkbox: Selector := ".recaptcha-checkbox-border"
  const ChallengeFrame: Selector := "iframe[src*=\"bframe\"]"
  const VerifyButton: Selector := "#recaptcha-verify-button"

  /**
   * The image challenge frame: its document, the text of its instruction
   * element ".rc-imageselect-desc-wrapper" (`None` when there is none), and for each tile image the outcome
   * of the random draw that decides whether it is clicked.
   */
  datatype ImageChallenge = ImageChallenge(frame: Document, instruction: Option<string>, clickDraws: seq<bool>)

  /** What `solve_visual_challenge` reports for the instruction and frame. */
  predicate VisualChallengePasses(frame: Document, instruction: string) {
    TargetsIn(instruction) != [] && VerifyButton in frame.matching
  }

  /**
   * `solve_visual_challenge`: gives up, clicking nothing, when the instruction
   * names no known target; otherwise clicks, in page order, the tiles whose
   * draw says so and succeeds exactly when there is a verify button to press.
   */
  method SolveVisualChallenge(frame: Document, clickDraws: seq<bool>, instruction: string)
    returns (solved: bool, clicked: seq<nat>)
    ensures solved == VisualChallengePasses(frame, instruction)
    ensures TargetsIn(instruction) == [] ==> clicked == []
    ensures TargetsIn(instruction) != [] ==>
              forall k: nat :: k in clicked <==> k < |clickDraws| && clickDraws[k]
    ensures forall a, b :: 0 <= a < b < |clicked| ==> clicked[a] < clicked[b]
  {
    var targets := ExtractTargetFromInstruction(instruction);
    if targets == [] {
      return false, [];
    }
    clicked := [];
    for i := 0 to |clickDraws|
      invariant forall k: nat :: k in clicked <==> k < i && clickDraws[k]
      invariant forall a, b :: 0 <= a < b < |clicked| ==> clicked[a] < clicked[b]
      invariant forall a :: 0 <= a < |clicked| ==> clicked[a] < i
    {
      if clickDraws[i] {
        clicked := clicked + [i];
      }
    }
    solved := VerifyButton in frame.matching;
  }

  predicate ImageChallengePasses(c: ImageChallenge) {
    c.instruction.Some? && c.clickDraws != [] && VisualChallengePasses(c.frame, c.instruction.value)
  }

  /**
   * `solve_image_challenge`: fails without an instruction element or without
   * tile images; otherwise it is the visual challenge's verdict.
   */
  method SolveImageChallenge(c: ImageChallenge) returns (solved: bool)
    ensures solved == ImageChallengePasses(c)
    ensures c.instruction.None? || c.clickDraws == [] ==> !solved
  {
    if c.instruction.None? || c.clickDraws == [] {
      return false;
    }
    var clicked;
    solved, clicked := SolveVisualChallenge(c.frame, c.clickDraws, c.instruction.value);
  }

  /**
   * What the strategies of the chain see: the page when the chain starts, the
   * document inside the reCAPTCHA anchor iframe, the image challenge frame, the
   * random draws of a slide, and the page after the bypass strategy's reload and
   * after its back-and-forward.
   */
  datatype CaptchaPage = CaptchaPage(
    page: Document,
    anchor: Document,
    challenge: ImageChallenge,
    puzzleDraws: SliderDraws,
    afterReload: Document,
    afterBackForward: Document)

  predicate RecaptchaPasses(p: CaptchaPage) {
    && RecaptchaFrame in p.page.matching
    && Checkbox in p.anchor.matching
    && (ChallengeFrame in p.page.matching ==> ImageChallengePasses(p.challenge))
  }

  /**
   * `solve_recaptcha_v2`: a missing anchor iframe or checkbox ends the wait for
   * it in a timeout and the strategy fails; after the checkbox click, the
   * strategy succeeds at once when no challenge frame appears and otherwise
   * reports the image challenge's verdict.
   */
  method SolveRecaptchaV2(p: CaptchaPage) returns (solved: bool)
    ensures solved == RecaptchaPasses(p)
    ensures RecaptchaFrame !in p.page.matching || Checkbox !in p.anchor.matching ==> !solved
    ensures (RecaptchaFrame in p.page.matching && Checkbox in p.anchor.matching
             && ChallengeFrame !in p.page.matching) ==> solved
  {
    if RecaptchaFrame !in p.page.matching || Checkbox !in p.anchor.matching {
      return false;
    }
    if ChallengeFrame in p.page.matching {
      solved := SolveImageChallenge(p.challenge);
    } else {
      solved := true;
    }
  }

  // ---------------------------------------------------------------------------
  // Puzzles

  const PuzzleContainer: Selector := "[class*=\"puzzle\"], [id*=\"puzzle\"]"
  const Slider: Selector := "div[class*=\"slider\"], input[type=\"range\"]"
  const DragHandle: Selector := "[class*=\"drag\"], [draggable=\"true\"]"
  const DropZone: Selector := "[class*=\"drop\"], [class*=\"target\"]"

  /** A step of the mouse gestures the puzzle strategies perform. */
  datatype MouseEvent = MoveTo(x: real, y: real) | Press | Release

  /** A point of the page lies in the box, edges included. */
  predicate Inside(b: Box, x: real, y: real) {
    b.x <= x <= b.x + b.width && b.y <= y <= b.y + b.height
  }

  /** The pointer is moved to the centre of the box: as far from the left edge as from the right, and from the top as from the bottom. */
  predicate AtCentre(b: Box, e: MouseEvent) {
    e.MoveTo? && e.x - b.x == b.x + b.width - e.x && e.y - b.y == b.y + b.height - e.y
  }

  function Min(a: real, b: real): real { if a <= b then a else b }
  function Max(a: real, b: real): real { if a <= b then b else a }

  /**
   * The random draws of `solve_slider_puzzle`: the share of the slider's width
   * the drag aims at (from 80% to 95%), the number of intermediate moves (15 to
   * 25) and the horizontal jitter of each move (at most 2 pixels either way).
   */
  datatype Draws = Draws(reach: real, steps: nat, jitters: seq<real>)

  predicate DrawsInRange(r: Draws) {
    && 0.8 <= r.reach <= 0.95
    && 15 <= r.steps <= 25
    && |r.jitters| == r.steps
    && forall i :: 0 <= i < |r.jitters| ==> -2.0 <= r.jitters[i] <= 2.0
  }

  /** Draws the random module can produce for one slide. */
  type SliderDraws = r: Draws | DrawsInRange(r) witness Draws(0.8, 15, seq(15, i => 0.0))

  /** `i / n` for `0 <= i < n` is a progress between 0 (included) and 1 (excluded). */
  lemma ProgressBounds(i: nat, n: nat)
    requires i < n
    ensures 0.0 <= i as real / n as real < 1.0
  {
    var p := i as real / n as real;
    assert p * n as real == i as real;
  }

  lemma MulNonnegative(x: real, y: real)
    requires x >= 0.0 && y >= 0.0
    ensures x * y >= 0.0
  {
  }

  /** A point a share `t` of the way from `a` to `b` lies between them. */
  lemma Interpolate(a: real, b: real, t: real)
    requires 0.0 <= t <= 1.0
    ensures Min(a, b) <= a + (b - a) * t <= Max(a, b)
  {
    if a <= b {
      MulNonnegative(b - a, t);
      MulNonnegative(b - a, 1.0 - t);
    } else {
      MulNonnegative(a - b, t);
      MulNonnegative(a - b, 1.0 - t);
    }
  }

  /** Aiming 80% to 95% of the way along a slider lands 80% to 95% of its width in. */
  lemma ReachBounds(width: real, reach: real)
    requires width >= 0.0 && 0.8 <= reach <= 0.95
    ensures 0.8 * width <= width * reach <= 0.95 * width
  {
    MulNonnegative(width, reach - 0.8);
    MulNonnegative(width, 0.95 - reach);
  }

  /** One intermediate move of a slide: on the line `y`, within 2 pixels of the span from `x0` to `x1`. */
  predicate SlideMove(e: MouseEvent, x0: real, x1: real, y: real) {
    e.MoveTo? && e.y == y && Min(x0, x1) - 2.0 <= e.x <= Max(x0, x1) + 2.0
  }

  /** The press point of a slide: 10 pixels in from the slider's left edge, at mid height. */
  function SlideStart(b: Box): MouseEvent {
    MoveTo(b.x + 10.0, b.y + b.height / 2.0)
  }

  /** The point a slide aims at: a share `reach` of the slider's width in from its left edge. */
  function SlideEnd(b: Box, reach: real): real {
    b.x + b.width * reach
  }

  /** The gesture of a slide with `steps` intermediate moves. */
  predicate IsSlide(b: Box, reach: real, steps: nat, gesture: seq<MouseEvent>) {
    && |gesture| == steps + 3
    && gesture[0] == SlideStart(b) && gesture[1] == Press && gesture[|gesture| - 1] == Release
    && forall k :: 2 <= k < |gesture| - 1 ==>
         SlideMove(gesture[k], SlideStart(b).x, SlideEnd(b, reach), SlideStart(b).y)
  }

  /** On a slider at least 40 pixels wide, a slide never takes the pointer off the slider. */
  lemma SlideStaysOnSlider(b: Box, reach: real, steps: nat, gesture: seq<MouseEvent>)
    requires IsSlide(b, reach, steps, gesture) && 0.8 <= reach <= 0.95
    requires b.width >= 40.0 && b.height >= 0.0
    ensures forall k :: 0 <= k < |gesture| && gesture[k].MoveTo? ==> Inside(b, gesture[k].x, gesture[k].y)
  {
    ReachBounds(b.width, reach);
    forall k | 0 <= k < |gesture| && gesture[k].MoveTo?
      ensures Inside(b, gesture[k].x, gesture[k].y)
    {
      if k >= 2 {
        assert k < |gesture| - 1;
        assert SlideMove(gesture[k], SlideStart(b).x, SlideEnd(b, reach), SlideStart(b).y);
      }
    }
  }

  /**
   * `solve_slider_puzzle`: fails when the slider has no bounding box. Otherwise
   * it presses 10 pixels in from the slider's left edge at mid height, moves
   * along that line towards the aimed point in `steps` jittered moves, each
   * within 2 pixels of the span between the two, and releases; the slide is
   * reported a success.
   */
  method SolveSliderPuzzle(slider: Option<Box>, draws: SliderDraws) returns (solved: bool, gesture: seq<MouseEvent>)
    ensures solved <==> slider.Some?
    ensures !solved ==> gesture == []
    ensures solved ==> IsSlide(slider.value, draws.reach, draws.steps, gesture)
  {
    if slider.None? {
      return false, [];
    }
    var b := slider.value;
    var start := SlideStart(b);
    var endX := SlideEnd(b, draws.reach);
    gesture := [start, Press];
    for i := 0 to draws.steps
      invariant |gesture| == i + 2
      invariant gesture[0] == start && gesture[1] == Press
      invariant forall k :: 2 <= k < |gesture| ==> SlideMove(gesture[k], start.x, endX, start.y)
    {
      var progress := i as real / draws.steps as real;
      ProgressBounds(i, draws.steps);
      var currentX := start.x + (endX - start.x) * progress;
      Interpolate(start.x, endX, progress);
      assert Min(start.x, endX) <= currentX <= Max(start.x, endX);
      assert DrawsInRange(draws);
      var jitter := draws.jitters[i];
      assert -2.0 <= jitter <= 2.0;
      var move := MoveTo(currentX + jitter, start.y);
      assert SlideMove(move, start.x, endX, start.y);
      gesture := gesture + [move];
    }
    gesture := gesture + [Release];
    solved := true;
  }

  /**
   * `solve_drag_puzzle`: fails without a drop zone, or when the dragged
   * element or the drop zone has no bounding box. Otherwise it presses at the
   * centre of the dragged element, releases at the centre of the drop zone,
   * and reports a success.
   */
  method SolveDragPuzzle(d: Document, dragged: Option<Box>) returns (solved: bool, gesture: seq<MouseEvent>)
    ensures solved <==> DropZone in d.matching && dragged.Some? && DropZone in d.boxed
    ensures !solved ==> gesture == []
    ensures solved ==>
              && |gesture| == 4 && gesture[1] == Press && gesture[3] == Release
              && AtCentre(dragged.value, gesture[0]) && AtCentre(d.boxed[DropZone], gesture[2])
    ensures solved ==>
              var (from, to) := (dragged.value, d.boxed[DropZone]);
              (from.width >= 0.0 && from.height >= 0.0 ==> Inside(from, gesture[0].x, gesture[0].y))
              && (to.width >= 0.0 && to.height >= 0.0 ==> Inside(to, gesture[2].x, gesture[2].y))
  {
    if DropZone !in d.matching {
      return false, [];
    }
    var drop := BoxOf(d, DropZone);
    if dragged.None? || drop.None? {
      return false, [];
    }
    var from, to := dragged.value, drop.value;
    gesture := [MoveTo(from.x + from.width / 2.0, from.y + from.height / 2.0), Press,
                MoveTo(to.x + to.width / 2.0, to.y + to.height / 2.0), Release];
    solved := true;
  }

  /** What `solve_puzzle_captcha` reports for a page. */
  function PuzzlePasses(d: Document): (solved: bool)
    ensures PuzzleContainer !in d.matching ==> !solved
    ensures PuzzleContainer in d.matching && Slider in d.matching ==> solved == (Slider in d.boxed)
    ensures PuzzleContainer in d.matching && Slider !in d.matching ==>
              solved == (DragHandle in d.matching && DropZone in d.matching && DragHandle in d.boxed && DropZone in d.boxed)
    ensures solved ==> Slider in d.boxed || DragHandle in d.boxed
  {
    if PuzzleContainer !in d.matching then false
    else if Slider in d.matching then Slider in d.boxed
    else if DragHandle in d.matching then DropZone in d.matching && DragHandle in d.boxed && DropZone in d.boxed
    else false
  }

  /**
   * `solve_puzzle_captcha`: without a puzzle container it fails; a slider takes
   * precedence over a draggable element; with neither it fails. A success
   * always comes with one press-and-release gesture.
   */
  method SolvePuzzleCaptcha(d: Document, draws: SliderDraws) returns (solved: bool, gesture: seq<MouseEvent>)
    ensures solved == PuzzlePasses(d)
    ensures !solved ==> gesture == []
    ensures solved ==> |gesture| >= 4 && gesture[1] == Press && gesture[|gesture| - 1] == Release
  {
    if PuzzleContainer !in d.matching {
      return false, [];
    }
    if Slider in d.matching {
      solved, gesture := SolveSliderPuzzle(BoxOf(d, Slider), draws);
    } else if DragHandle in d.matching {
      solved, gesture := SolveDragPuzzle(d, BoxOf(d, DragHandle));
    } else {
      solved, gesture := false, [];
    }
  }

  // ---------------------------------------------------------------------------
  // Waiting it out

  predicate BypassSucceeds(p: CaptchaPage) {
    !CaptchaPresent(p.afterReload) || !CaptchaPresent(p.afterBackForward)
  }

  /**
   * `bypass_captcha_with_delays`: after a reload the captcha may be gone;
   * only when it is still there does the strategy go back and forward and
   * look once more.
   */
  method BypassCaptchaWithDelays(p: CaptchaPage) returns (bypassed: bool, wentBackAndForth: bool)
    ensures bypassed == BypassSucceeds(p)
    ensures wentBackAndForth == CaptchaPresent(p.afterReload)
    ensures !CaptchaPresent(p.afterReload) ==> bypassed
  {
    var still, _ := DetectCaptcha(p.afterReload);
    if !still {
      return true, false;
    }
    var again, _ := DetectCaptcha(p.afterBackForward);
    return !again, true;
  }

  // ---------------------------------------------------------------------------
  // The chain

  /** The verdicts of the three strategies, in the order `solve_captcha` tries them. */
  function StrategyResults(p: CaptchaPage): seq<bool> {
    [RecaptchaPasses(p), PuzzlePasses(p.page), BypassSucceeds(p)]
  }

  /**
   * `solve_captcha`: nothing to do without a captcha; otherwise the strategies
   * run in order until one succeeds. `tried` is the number of strategies run:
   * none after the first success, all three when every one fails.
   */
  method SolveCaptcha(p: CaptchaPage) returns (solved: bool, tried: nat)
    ensures !CaptchaPresent(p.page) ==> solved && tried == 0
    ensures CaptchaPresent(p.page) ==> 1 <= tried <= |StrategyResults(p)|
    ensures CaptchaPresent(p.page) ==> forall i :: 0 <= i < tried - 1 ==> !StrategyResults(p)[i]
    ensures CaptchaPresent(p.page) ==> solved == StrategyResults(p)[tried - 1]
    ensures CaptchaPresent(p.page) && !solved ==> tried == |StrategyResults(p)|
    ensures solved <==> !CaptchaPresent(p.page) || true in StrategyResults(p)
  {
    var present, _ := DetectCaptcha(p.page);
    if !present {
      return true, 0;
    }
    var results := StrategyResults(p);
    tried := 0;
    while tried < 3
      invariant tried <= 3
      invariant forall i :: 0 <= i < tried ==> !results[i]
    {
      var ok: bool;
      if tried == 0 {
        ok := SolveRecaptchaV2(p);
      } else if tried == 1 {
        var gesture;
        ok, gesture := SolvePuzzleCaptcha(p.page, p.puzzleDraws);
      } else {
        var navigated;
        ok, navigated := BypassCaptchaWithDelays(p);
      }
      tried := tried + 1;
      if ok {
        return true, tried;
      }
    }
    solved := false;
  }

  /**
   * `wait_for_manual_solve`, with time in whole seconds: the page is looked at
   * once a second, `pageAt(k)` being what it shows `k` seconds in, until the
   * captcha is gone or `timeout` seconds have passed. `polls` counts the looks.
   */
  method WaitForManualSolve(pageAt: nat -> Document, timeout: int := 60) returns (solved: bool, polls: nat)
    ensures solved <==> exists k: nat :: k < timeout && !CaptchaPresent(pageAt(k))
    ensures solved ==> 0 < polls && polls <= timeout && !CaptchaPresent(pageAt(polls - 1))
    ensures solved ==> forall k: nat :: k < polls - 1 ==> CaptchaPresent(pageAt(k))
    ensures !solved ==> polls == (if timeout < 0 then 0 else timeout)
  {
    polls := 0;
    while polls < timeout
      invariant polls <= timeout || polls == 0
      invariant forall k: nat :: k < polls ==> CaptchaPresent(pageAt(k))
    {
      var present, _ := DetectCaptcha(pageAt(polls));
      polls := polls + 1;
      if !present {
        return true, polls;
      }
    }
    solved := false;
  }
}
