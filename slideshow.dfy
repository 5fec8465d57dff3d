/**
 * The hero-section slideshow of the front-end script. Images are preloaded, each to its
 * source path or to `null` on a load error; once loading is over the first loaded image is
 * shown, and with two or more loaded images a timer calls `transitionToNextImage`, which
 * scans cyclically from the current index for the next loaded image and cross-fades the
 * two layers.
 *
 * The DOM is reduced to two `Layer` objects (background image, `active` and `ken-burns`
 * classes); timers and promises are left out, so each call runs to completion, including
 * the layer swap the source defers by 1.5 seconds.
 */
module HeroSlideshow {
  import opened Wrappers

  const HeroImages: seq<string> :=
    ["assets/img_1.jpeg", "assets/img_2.jpg", "assets/img_3.jpeg", "assets/img_4.jpg", "assets/img_5.jpg"]

  /** A preload result counts as loaded when it is truthy: a non-empty source path. */
  predicate IsLoaded(e: Option<string>)
  {
    e.Some? && e.value != ""
  }

  /** `loadedImages[i]`: `undefined` past the end, as before the preload has finished. */
  function Entry(loaded: seq<Option<string>>, i: nat): Option<string>
  {
    if i < |loaded| then loaded[i] else None
  }

  predicate LoadedAt(loaded: seq<Option<string>>, i: nat)
  {
    IsLoaded(Entry(loaded, i))
  }

  /**
   * Position `k` of a cyclic walk over `n` indices that starts at `start`, that is
   * `(start + k) % n` (see `CyclicIsMod`), for up to one full turn.
   */
  function Cyclic(start: nat, k: nat, n: nat): (i: nat)
    requires start < n && k <= n
    ensures i < n
  {
    if start + k < n then start + k else start + k - n
  }

  lemma CyclicIsMod(start: nat, k: nat, n: nat)
    requires start < n && k <= n
    ensures Cyclic(start, k, n) == (start + k) % n
  {
    if start + k < n {
      ModSmall(start + k, n);
    } else {
      ModOnce(start + k, n);
    }
  }

  lemma ModSmall(x: nat, n: nat)
    requires x < n
    ensures x % n == x
  {
  }

  lemma ModOnce(x: nat, n: nat)
    requires n <= x < 2 * n
    ensures x % n == x - n
  {
  }

  /**
   * The offset of the first loaded image among the first `fuel` positions of the cyclic walk
   * from `start`: the scan `transitionToNextImage` performs, as a specification.
   */
  function ScanOffset(loaded: seq<Option<string>>, n: nat, start: nat, fuel: nat): (r: Option<nat>)
    requires start < n && fuel <= n
    decreases fuel
    ensures r.Some? ==> r.value < fuel && LoadedAt(loaded, Cyclic(start, r.value, n))
    ensures r.Some? ==> forall k :: 0 <= k < r.value ==> !LoadedAt(loaded, Cyclic(start, k, n))
    ensures r.None? ==> forall k :: 0 <= k < fuel ==> !LoadedAt(loaded, Cyclic(start, k, n))
  {
    if fuel == 0 then None
    else if LoadedAt(loaded, start) then Some(0)
    else
      var rest := ScanOffset(loaded, n, Cyclic(start, 1, n), fuel - 1);
      assert forall k :: 1 <= k < fuel ==> Cyclic(start, k, n) == Cyclic(Cyclic(start, 1, n), k - 1, n);
      match rest
      case None => None
      case Some(d) => Some(d + 1)
  }

  /**
   * The search loop of `transitionToNextImage` over `images.length == n`: start one past
   * `current`, advance while the candidate is not loaded and fewer than `n` advances were
   * made. The candidate stays in range, at most `n` advances are made, and the image found
   * is the first loaded one on the cyclic walk from `current + 1`; none is found exactly
   * when no image is loaded (see `NothingLoadedIff`).
   */
  method FindNextLoaded(loaded: seq<Option<string>>, n: nat, current: nat)
    returns (found: bool, next: nat, attempts: nat)
    ensures n == 0 ==> !found && attempts == 0
    ensures n > 0 ==> next < n && attempts <= n
    ensures n > 0 ==> (found <==> ScanOffset(loaded, n, (current + 1) % n, n).Some?)
    ensures found ==> LoadedAt(loaded, next)
    ensures found ==> attempts == ScanOffset(loaded, n, (current + 1) % n, n).value &&
                      next == Cyclic((current + 1) % n, attempts, n)
  {
    if n == 0 {
      // `(current + 1) % 0` is NaN: the lookup is undefined and the loop never runs
      return false, 0, 0;
    }
    var start := (current + 1) % n;
    next := start;
    attempts := 0;
    while !LoadedAt(loaded, next) && attempts < n
      invariant attempts <= n
      invariant next == Cyclic(start, attempts, n)
      invariant forall k :: 0 <= k < attempts ==> !LoadedAt(loaded, Cyclic(start, k, n))
    {
      if next + 1 < n { ModSmall(next + 1, n); } else { ModOnce(next + 1, n); }
      next := (next + 1) % n;
      attempts := attempts + 1;
    }
    found := LoadedAt(loaded, next);
  }

  /** The scan stops at the first loaded position: a loaded position with none before it is the hit. */
  lemma ScanFirstHit(loaded: seq<Option<string>>, n: nat, start: nat, fuel: nat, m: nat)
    requires start < n && m < fuel <= n
    requires LoadedAt(loaded, Cyclic(start, m, n))
    requires forall k :: 0 <= k < m ==> !LoadedAt(loaded, Cyclic(start, k, n))
    ensures ScanOffset(loaded, n, start, fuel) == Some(m)
  {
  }

  /** A full cyclic walk from one past `current` finds any loaded image, before `current` itself unless that is the one. */
  lemma ScanFindsLoaded(loaded: seq<Option<string>>, n: nat, current: nat, i: nat)
    requires current < n && i < n && LoadedAt(loaded, i)
    ensures ScanOffset(loaded, n, Cyclic(current, 1, n), n).Some?
    ensures i != current ==> ScanOffset(loaded, n, Cyclic(current, 1, n), n).value < n - 1
  {
    var start := Cyclic(current, 1, n);
    var k: nat := if i >= start then i - start else i + n - start;
    assert Cyclic(start, k, n) == i;
    assert Cyclic(start, n - 1, n) == current;
  }

  /** No image is found exactly when none is loaded. */
  lemma NothingLoadedIff(loaded: seq<Option<string>>, n: nat, current: nat)
    requires current < n
    ensures ScanOffset(loaded, n, Cyclic(current, 1, n), n).None? <==> forall i :: 0 <= i < n ==> !LoadedAt(loaded, i)
  {
    if ScanOffset(loaded, n, Cyclic(current, 1, n), n).None? {
      forall i | 0 <= i < n
        ensures !LoadedAt(loaded, i)
      {
        if LoadedAt(loaded, i) {
          ScanFindsLoaded(loaded, n, current, i);
        }
      }
    }
  }

  /** With another loaded image besides the current one, a transition moves to a different index. */
  lemma TransitionMoves(loaded: seq<Option<string>>, n: nat, current: nat, j: nat)
    requires current < n && j < n && j != current && LoadedAt(loaded, j)
    ensures ScanOffset(loaded, n, Cyclic(current, 1, n), n).Some?
    ensures Cyclic(Cyclic(current, 1, n), ScanOffset(loaded, n, Cyclic(current, 1, n), n).value, n) != current
  {
    ScanFindsLoaded(loaded, n, current, j);
  }

  /** When the current image is the only loaded one, the transition lands on it again. */
  lemma OnlyCurrentLoaded(loaded: seq<Option<string>>, n: nat, current: nat)
    requires current < n && LoadedAt(loaded, current)
    requires forall i :: 0 <= i < n && i != current ==> !LoadedAt(loaded, i)
    ensures ScanOffset(loaded, n, Cyclic(current, 1, n), n).Some?
    ensures Cyclic(Cyclic(current, 1, n), ScanOffset(loaded, n, Cyclic(current, 1, n), n).value, n) == current
  {
    ScanFindsLoaded(loaded, n, current, current);
  }

  /** The index `transitionToNextImage` moves to, if any. */
  function NextIndex(loaded: seq<Option<string>>, n: nat, current: nat): (r: Option<nat>)
    requires current < n
    ensures r.Some? ==> r.value < n && LoadedAt(loaded, r.value)
    ensures r.None? <==> forall i :: 0 <= i < n ==> !LoadedAt(loaded, i)
  {
    NothingLoadedIff(loaded, n, current);
    match ScanOffset(loaded, n, Cyclic(current, 1, n), n)
    case Some(d) => Some(Cyclic(Cyclic(current, 1, n), d, n))
    case None => None
  }

  /** `results.filter(Boolean)`: the loaded images, in order. */
  function ValidImages(results: seq<Option<string>>): (v: seq<string>)
    ensures |v| <= |results|
    ensures |v| == 0 <==> forall i :: 0 <= i < |results| ==> !IsLoaded(results[i])
    ensures forall s :: s in v ==> Some(s) in results && s != ""
    ensures forall i :: 0 <= i < |results| && IsLoaded(results[i]) ==> results[i].value in v
  {
    if results == [] then []
    else
      assert forall i :: 1 <= i < |results| ==> results[i] == results[1..][i - 1];
      if IsLoaded(results[0]) then [results[0].value] + ValidImages(results[1..])
      else ValidImages(results[1..])
  }

  /**
   * Filtering a concatenation filters each part and keeps their order; with the one-element
   * case (`[e]` gives `[e.value]` when `e` is loaded and `[]` otherwise) this pins
   * `ValidImages` down as the loaded paths in index order.
   */
  lemma {:induction false} ValidImagesAppend(a: seq<Option<string>>, b: seq<Option<string>>)
    ensures ValidImages(a + b) == ValidImages(a) + ValidImages(b)
    decreases |a|
  {
    if a == [] {
      assert a + b == b;
    } else {
      assert (a + b)[1..] == a[1..] + b;
      ValidImagesAppend(a[1..], b);
    }
  }

  /** Each result contributes its path when loaded and nothing otherwise. */
  lemma ValidImagesSingle(e: Option<string>)
    ensures ValidImages([e]) == if IsLoaded(e) then [e.value] else []
  {
    assert [e][1..] == [];
  }

  /** Two loaded results give two valid images, in their order: the rotation starts. */
  lemma {:induction false} TwoLoadedRotate(results: seq<Option<string>>, i: nat, j: nat)
    requires i < j < |results| && IsLoaded(results[i]) && IsLoaded(results[j])
    ensures |ValidImages(results)| > 1
  {
    var a, b := results[..j], results[j..];
    assert results == a + b;
    ValidImagesAppend(a, b);
    assert a[i] == results[i];
    assert |ValidImages(a)| > 0;
    assert b == [results[j]] + b[1..];
    ValidImagesAppend([results[j]], b[1..]);
    ValidImagesSingle(results[j]);
  }

  /** The index of the first loaded image, `|results|` when there is none. */
  function StartIndex(results: seq<Option<string>>): (i: nat)
    ensures i <= |results|
    ensures i < |results| ==> IsLoaded(results[i])
    ensures forall k :: 0 <= k < i ==> !IsLoaded(results[k])
  {
    if results == [] then 0
    else if IsLoaded(results[0]) then 0
    else 1 + StartIndex(results[1..])
  }

  /** The first valid image is the one at `StartIndex`, and a second one lies beyond it. */
  lemma {:induction false} FirstValidImage(results: seq<Option<string>>)
    requires |ValidImages(results)| > 0
    ensures StartIndex(results) < |results|
    ensures results[StartIndex(results)] == Some(ValidImages(results)[0])
    ensures |ValidImages(results)| > 1 ==>
      exists j :: StartIndex(results) < j < |results| && IsLoaded(results[j])
  {
    if !IsLoaded(results[0]) {
      FirstValidImage(results[1..]);
      if |ValidImages(results)| > 1 {
        var j :| StartIndex(results[1..]) < j < |results[1..]| && IsLoaded(results[1..][j]);
        assert IsLoaded(results[j + 1]);
      }
    } else if |ValidImages(results)| > 1 {
      assert |ValidImages(results[1..])| > 0;
      var j :| 0 <= j < |results[1..]| && IsLoaded(results[1..][j]);
      assert IsLoaded(results[j + 1]);
    }
  }

  /** One of the two stacked background layers. */
  class Layer {
    var image: Option<string>
    var active: bool
    var kenBurns: bool

    constructor ()
      ensures image.None? && !active && !kenBurns
    {
      image, active, kenBurns := None, false, false;
    }
  }

  class Slideshow {
    const images: seq<string>
    var loaded: seq<Option<string>>
    var current: nat
    var activeLayer: Layer
    var inactiveLayer: Layer
    /** Whether the rotation timer was started. */
    var rotating: bool

    /** The two layer references never alias, and the index names one of the images. */
    predicate Valid()
      reads this
    {
      activeLayer != inactiveLayer && current < |images|
    }

    constructor ()
      ensures Valid() && images == HeroImages && loaded == [] && current == 0 && !rotating
      ensures fresh(activeLayer) && fresh(inactiveLayer)
      ensures activeLayer.image.None? && !activeLayer.active && !activeLayer.kenBurns
      ensures inactiveLayer.image.None? && !inactiveLayer.active && !inactiveLayer.kenBurns
    {
      images := HeroImages;
      loaded := [];
      current := 0;
      activeLayer := new Layer();
      inactiveLayer := new Layer();
      rotating := false;
    }

    /**
     * The preload callback as the script has it: the first valid image goes on the active
     * layer and rotation starts with two or more, but `currentImageIndex` stays where it was.
     */
    method StartAsWritten(results: seq<Option<string>>)
      requires Valid() && |results| == |images|
      modifies this, activeLayer
      ensures Valid() && loaded == results && current == old(current)
      ensures activeLayer == old(activeLayer) && inactiveLayer == old(inactiveLayer)
      ensures rotating == (old(rotating) || |ValidImages(results)| > 1)
      ensures |ValidImages(results)| > 0 ==>
        activeLayer.image == Some(ValidImages(results)[0]) && activeLayer.active && activeLayer.kenBurns
      ensures |ValidImages(results)| == 0 ==> unchanged(activeLayer)
    {
      loaded := results;
      var valid := ValidImages(results);
      if |valid| > 0 {
        activeLayer.image := Some(valid[0]);
        activeLayer.active := true;
        activeLayer.kenBurns := true;
        if |valid| > 1 {
          rotating := true;
        }
      }
    }

    /**
     * The preload callback with the current index set to the image put on screen, so that
     * the index always names the image shown.
     */
    method Start(results: seq<Option<string>>)
      requires Valid() && |results| == |images|
      modifies this, activeLayer
      ensures Valid() && loaded == results
      ensures activeLayer == old(activeLayer) && inactiveLayer == old(inactiveLayer)
      ensures rotating == (old(rotating) || |ValidImages(results)| > 1)
      ensures |ValidImages(results)| > 0 ==>
        current == StartIndex(results) && Entry(loaded, current) == activeLayer.image &&
        activeLayer.image == Some(ValidImages(results)[0]) && activeLayer.active && activeLayer.kenBurns
      ensures |ValidImages(results)| == 0 ==> current == old(current) && unchanged(activeLayer)
    {
      loaded := results;
      var valid := ValidImages(results);
      if |valid| > 0 {
        FirstValidImage(results);
        current := StartIndex(results);
        activeLayer.image := Some(valid[0]);
        activeLayer.active := true;
        activeLayer.kenBurns := true;
        if |valid| > 1 {
          rotating := true;
        }
      }
    }

    /**
     * `transitionToNextImage`: nothing changes when no image is loaded; otherwise the index
     * moves to the first loaded image after the current one (cyclically), that image goes on
     * the inactive layer, which fades in, and the two layer references swap.
     */
    method TransitionToNextImage()
      requires Valid()
      modifies this, activeLayer, inactiveLayer
      ensures Valid() && loaded == old(loaded) && rotating == old(rotating)
      ensures var target := NextIndex(old(loaded), |images|, old(current));
        if target.None? then
          current == old(current) &&
          activeLayer == old(activeLayer) && inactiveLayer == old(inactiveLayer) &&
          unchanged(activeLayer) && unchanged(inactiveLayer)
        else
          current == target.value &&
          activeLayer == old(inactiveLayer) && inactiveLayer == old(activeLayer) &&
          activeLayer.image == Entry(loaded, current) && activeLayer.active && activeLayer.kenBurns &&
          inactiveLayer.image == old(activeLayer.image) && !inactiveLayer.active && !inactiveLayer.kenBurns
    {
      var found, next, attempts := FindNextLoaded(loaded, |images|, current);
      CyclicIsMod(current, 1, |images|);
      if !found {
        return;
      }
      current := next;
      inactiveLayer.image := Entry(loaded, current);
      inactiveLayer.kenBurns := true;
      inactiveLayer.active := true;
      activeLayer.active := false;
      // the deferred part: drop the old layer's animation, then swap the references
      activeLayer.kenBurns := false;
      activeLayer, inactiveLayer := inactiveLayer, activeLayer;
    }
  }

  /**
   * As written, the first transition after a failed first image shows the same picture
   * again: with image 0 missing, the first valid image is the one at `StartIndex`, put on
   * screen while the index stays 0, and the walk from index 1 lands on that same index.
   */
  lemma FirstTransitionRepeatsAsWritten(results: seq<Option<string>>)
    requires |results| > 0 && !IsLoaded(results[0]) && |ValidImages(results)| > 0
    ensures StartIndex(results) < |results|
    ensures results[StartIndex(results)] == Some(ValidImages(results)[0])
    ensures NextIndex(results, |results|, 0) == Some(StartIndex(results))
  {
    FirstValidImage(results);
    var n, s := |results|, StartIndex(results);
    assert 1 <= s < n;
    assert Cyclic(0, 1, n) == 1;
    assert Cyclic(1, s - 1, n) == s;
    assert forall k :: 0 <= k < s - 1 ==> Cyclic(1, k, n) == k + 1;
    ScanFirstHit(results, n, 1, n, s - 1);
  }

  /** The concrete case: `img_1.jpeg` fails, and the first transition picks `img_2.jpg` again. */
  lemma FirstImageFailedExample()
    ensures var results := [None, Some("assets/img_2.jpg"), Some("assets/img_3.jpeg"),
                            Some("assets/img_4.jpg"), Some("assets/img_5.jpg")];
      NextIndex(results, 5, 0) == Some(1) && ValidImages(results)[0] == "assets/img_2.jpg"
  {
    var results := [None, Some("assets/img_2.jpg"), Some("assets/img_3.jpeg"),
                    Some("assets/img_4.jpg"), Some("assets/img_5.jpg")];
    FirstTransitionRepeatsAsWritten(results);
    assert StartIndex(results) == 1;
  }

  /**
   * With the index set by `Start`, and the rotation started (two or more valid images), the
   * first transition always moves to a different image index.
   */
  lemma FirstTransitionMoves(results: seq<Option<string>>)
    requires |ValidImages(results)| > 1
    ensures StartIndex(results) < |results|
    ensures NextIndex(results, |results|, StartIndex(results)).Some?
    ensures NextIndex(results, |results|, StartIndex(results)).value != StartIndex(results)
  {
    FirstValidImage(results);
    var j :| StartIndex(results) < j < |results| && IsLoaded(results[j]);
    assert LoadedAt(results, j);
    TransitionMoves(results, |results|, StartIndex(results), j);
  }
}
