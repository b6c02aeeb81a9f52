/**
 * A project card: the cover tile that opens a modal, and the modal's image
 * carousel, which steps through the project's images with wrap-around.
 */
module Card {
  import opened Storage

  /** `handleNextImage`: the last index goes back to the first. */
  function NextImageIndex(i: int, n: int): (r: int)
    ensures 0 <= i < n ==> 0 <= r < n && r == (i + 1) % n
  {
    if i == n - 1 then 0 else i + 1
  }

  /** `handlePrevImage`: the first index goes round to the last. */
  function PrevImageIndex(i: int, n: int): (r: int)
    ensures 0 <= i < n ==> 0 <= r < n && r == (i - 1) % n
  {
    if i == 0 then n - 1 else i - 1
  }

  /** Previous undoes next, and next undoes previous. */
  lemma NextPrevInverse(i: int, n: int)
    requires 0 <= i < n
    ensures PrevImageIndex(NextImageIndex(i, n), n) == i
    ensures NextImageIndex(PrevImageIndex(i, n), n) == i
  {
  }

  /** `k` presses of the next button. */
  function StepNext(i: int, n: int, k: nat): int
  {
    if k == 0 then i else NextImageIndex(StepNext(i, n, k - 1), n)
  }

  /** Pressing next `k` times moves `k` places round the ring. */
  lemma {:induction false} StepNextIsModular(i: int, n: int, k: nat)
    requires 0 <= i < n
    ensures StepNext(i, n, k) == (i + k) % n
  {
    if k > 0 {
      StepNextIsModular(i, n, k - 1);
      var j := StepNext(i, n, k - 1);
      assert 0 <= j < n;
      ModStep(i + k - 1, n);
    }
  }

  lemma ModStep(a: int, n: int)
    requires n > 0
    ensures (a % n + 1) % n == (a + 1) % n
  {
    var q, r := a / n, a % n;
    assert a == q * n + r;
    if r + 1 < n {
      ModUnique(a + 1, n, q, r + 1);
      ModUnique(r + 1, n, 0, r + 1);
    } else {
      assert a + 1 == (q + 1) * n;
      ModUnique(a + 1, n, q + 1, 0);
      ModUnique(r + 1, n, 1, 0);
    }
  }

  /** The remainder is the only one in range. */
  lemma ModUnique(a: int, n: int, q: int, r: int)
    requires n > 0 && a == q * n + r && 0 <= r < n
    ensures a % n == r
  {
    var q0, r0 := a / n, a % n;
    assert (q0 - q) * n == r - r0;
    MultipleInRange(q0 - q, n);
  }

  lemma MultipleInRange(d: int, n: int)
    requires n > 0 && -n < d * n < n
    ensures d == 0
  {
    assert d > 0 ==> d * n >= n;
    assert d < 0 ==> d * n <= -n;
  }

  /** As many presses as there are images comes back to the image shown first. */
  lemma FullTurn(i: int, n: int)
    requires 0 <= i < n
    ensures StepNext(i, n, n) == i
  {
    StepNextIsModular(i, n, n);
    ModUnique(i + n, n, 1, i);
  }

  class ProjectCard {
    const project: Project
    var showModal: bool
    var currentImageIndex: int

    constructor (project: Project)
      ensures this.project == project && !showModal && currentImageIndex == 0
    {
      this.project := project;
      showModal := false;
      currentImageIndex := 0;
    }

    /** The index names an image whenever there is one. */
    predicate ValidIndex()
      reads this
    {
      |project.images| == 0 || 0 <= currentImageIndex < |project.images|
    }

    method Open()
      modifies this`showModal
      ensures showModal
    {
      showModal := true;
    }

    method Close()
      modifies this`showModal
      ensures !showModal
    {
      showModal := false;
    }

    method NextImage()
      modifies this`currentImageIndex
      ensures currentImageIndex == NextImageIndex(old(currentImageIndex), |project.images|)
      ensures old(ValidIndex()) && |project.images| > 0 ==> ValidIndex()
    {
      currentImageIndex := if currentImageIndex == |project.images| - 1 then 0 else currentImageIndex + 1;
    }

    method PrevImage()
      modifies this`currentImageIndex
      ensures currentImageIndex == PrevImageIndex(old(currentImageIndex), |project.images|)
      ensures old(ValidIndex()) && |project.images| > 0 ==> ValidIndex()
    {
      currentImageIndex := if currentImageIndex == 0 then |project.images| - 1 else currentImageIndex - 1;
    }

    /** A dot is drawn for each image, so the index chosen is one of them. */
    method SelectImage(idx: int)
      requires 0 <= idx < |project.images|
      modifies this`currentImageIndex
      ensures currentImageIndex == idx && ValidIndex()
    {
      currentImageIndex := idx;
    }
  }
}
