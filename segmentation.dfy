/** One item's processing (`process_image`): resize, submit to the
    segmentation service, and on success save the resized image and the mask,
    with a bounded number of attempts and a pause after every failed one.

    What happens inside an attempt (JPEG encoding, the multipart POST, JSON
    and base64 parsing, mask decoding, the two writes) is collapsed into the
    attempt's outcome, supplied as input. The effects the source has on the
    outside world are returned as a trace: attempts made, POSTs issued,
    pauses taken and files written. */
module Segmentation {
  import opened Resize
  import opened Paths

  /** The default value of the `retries` parameter. */
  const DefaultRetries: int := 3

  /** Where an exception left an attempt. */
  datatype Failure =
    | EncodeError    // raised before the POST: resizing or JPEG encoding (an unreadable input is `None`)
    | NetworkError   // raised by the POST itself
    | ResponseError  // raised after a 200: JSON, base64 or mask decoding, or a write

  /** The outcome of one attempt. `Response(200)` is an attempt that went
      through decoding and both writes; any other status is a bad response. */
  datatype Attempt = Response(status: int) | Raised(failure: Failure)
  {
    predicate Succeeded() {
      Response? && status == 200
    }

    /** The attempt reached `requests.post`. */
    predicate Posted() {
      !(Raised? && failure == EncodeError)
    }
  }

  /** A file written by the pipeline: the resized image with its dimensions,
      or the mask. */
  datatype FileWrite = ImageFile(path: string, dims: Dims) | MaskFile(path: string)
  {
    function Path(): string {
      match this
      case ImageFile(p, _) => p
      case MaskFile(p) => p
    }
  }

  /** The observable effects of processing one item. */
  datatype Trace = Trace(attempts: nat, posts: nat, sleeps: nat, writes: seq<FileWrite>)

  /** Number of attempts that `range(retries)` allows: its length. */
  function AttemptLimit(retries: int): nat {
    if retries < 0 then 0 else retries
  }

  /** Number of POSTs issued by a run of attempts. */
  function CountPosts(attempts: seq<Attempt>): (n: nat)
    ensures n <= |attempts|
  {
    if attempts == [] then 0
    else CountPosts(attempts[..|attempts| - 1]) + (if attempts[|attempts| - 1].Posted() then 1 else 0)
  }

  /** Some attempt among the first `retries` succeeds. */
  predicate SucceedsWithin(outcomes: seq<Attempt>, retries: int) {
    exists i :: 0 <= i < retries && i < |outcomes| && outcomes[i].Succeeded()
  }

  /** The outcomes agree with the image: when resizing the image raises,
      every attempt raises before the POST, whatever the service would do. */
  predicate OutcomesMatchImage(image: Dims, outcomes: seq<Attempt>) {
    ResizeRaises(image) ==> forall i :: 0 <= i < |outcomes| ==> outcomes[i] == Raised(EncodeError)
  }

  /** The two files a successful attempt writes, resized image first: both
      under the unchanged file name, one in each output directory. */
  function SavedOutputs(fileName: string, image: Dims, dirs: OutputPaths): seq<FileWrite> {
    [ImageFile(ImagePath(dirs, fileName), AutoResize(image)), MaskFile(MaskPath(dirs, fileName))]
  }

  /** Both saved files carry the item's file name, and in the run's layout
      they land in different directories. */
  lemma SavedOutputsCorrelate(fileName: string, image: Dims, root: string)
    requires Separator !in fileName
    ensures var w := SavedOutputs(fileName, image, Layout(root));
      BaseName(w[0].Path()) == fileName && BaseName(w[1].Path()) == fileName && w[0].Path() != w[1].Path()
  {
    OutputsCorrelate(root, fileName);
  }

  /** `process_image`. Returns True exactly when one of the first `retries`
      attempts succeeds; it stops at the first success, pauses once after
      every failed attempt (the last one included), and writes files only on
      success. `outcomes[i]` is what attempt `i` runs into. */
  method ProcessImage(fileName: string, image: Dims, dirs: OutputPaths, outcomes: seq<Attempt>, retries: int)
    returns (ok: bool, trace: Trace)
    requires retries <= |outcomes|
    requires OutcomesMatchImage(image, outcomes)
    ensures ok <==> SucceedsWithin(outcomes, retries)
    ensures retries <= 0 ==> !ok && trace == Trace(0, 0, 0, [])
    ensures ResizeRaises(image) ==> !ok && trace.posts == 0
    ensures trace.attempts <= AttemptLimit(retries)
    ensures ok ==> trace.attempts >= 1 && outcomes[trace.attempts - 1].Succeeded()
    ensures forall i :: 0 <= i < trace.attempts - (if ok then 1 else 0) ==> !outcomes[i].Succeeded()
    ensures !ok ==> trace.attempts == AttemptLimit(retries)
    ensures trace.posts == CountPosts(outcomes[..trace.attempts])
    ensures trace.sleeps == if ok then trace.attempts - 1 else trace.attempts
    ensures trace.writes == if ok then SavedOutputs(fileName, image, dirs) else []
  {
    var attempts, posts, sleeps := 0, 0, 0;
    var limit := AttemptLimit(retries);
    while attempts < limit
      invariant attempts <= limit
      invariant forall i :: 0 <= i < attempts ==> !outcomes[i].Succeeded()
      invariant posts == CountPosts(outcomes[..attempts])
      invariant sleeps == attempts
    {
      // every attempt resizes the original image
      var resized := AutoResize(image);
      var outcome := outcomes[attempts];
      assert outcomes[..attempts + 1][..attempts] == outcomes[..attempts];
      attempts := attempts + 1;
      if outcome.Posted() {
        posts := posts + 1;
      }
      if outcome.Succeeded() {
        // decoded, both files written
        var writes := [ImageFile(ImagePath(dirs, fileName), resized), MaskFile(MaskPath(dirs, fileName))];
        ok, trace := true, Trace(attempts, posts, sleeps, writes);
        assert outcomes[attempts - 1].Succeeded();
        return;
      }
      // a bad status or an exception: pause, then try again
      sleeps := sleeps + 1;
    }
    ok, trace := false, Trace(attempts, posts, sleeps, []);
    assert forall i :: 0 <= i < retries && i < |outcomes| ==> !outcomes[i].Succeeded();
    if ResizeRaises(image) {
      CountPostsNonePosted(outcomes[..attempts]);
    }
  }

  /** When no attempt fails before the POST, every attempt issues one. */
  lemma {:induction false} CountPostsAllPosted(attempts: seq<Attempt>)
    requires forall i :: 0 <= i < |attempts| ==> attempts[i].Posted()
    ensures CountPosts(attempts) == |attempts|
  {
    if attempts != [] {
      CountPostsAllPosted(attempts[..|attempts| - 1]);
    }
  }

  /** When every attempt fails before the POST, none is issued. */
  lemma {:induction false} CountPostsNonePosted(attempts: seq<Attempt>)
    requires forall i :: 0 <= i < |attempts| ==> !attempts[i].Posted()
    ensures CountPosts(attempts) == 0
  {
    if attempts != [] {
      CountPostsNonePosted(attempts[..|attempts| - 1]);
    }
  }

  /** Every attempt raises before the POST, as it does for an input that
      could not be read (`None` from the image reader). Images are only
      dimensions here, so an unreadable input is represented solely through
      these outcomes: the item fails after `retries` attempts and pauses
      without contacting the service. */
  method UnreadableInput(fileName: string, image: Dims, dirs: OutputPaths, outcomes: seq<Attempt>, retries: nat)
    returns (ok: bool, trace: Trace)
    requires |outcomes| == retries
    requires forall i :: 0 <= i < |outcomes| ==> outcomes[i] == Raised(EncodeError)
    ensures !ok && trace.attempts == retries && trace.posts == 0 && trace.sleeps == retries
    ensures trace.writes == []
  {
    ok, trace := ProcessImage(fileName, image, dirs, outcomes, retries);
    assert outcomes[..retries] == outcomes;
    CountPostsNonePosted(outcomes);
  }

  /** A tall image too narrow to resize: `autoresize` raises in every
      attempt, so the item fails after `retries` attempts and pauses without
      a POST, whatever the service would have answered. */
  method TooNarrowToResize(fileName: string, image: Dims, dirs: OutputPaths, outcomes: seq<Attempt>, retries: nat)
    returns (ok: bool, trace: Trace)
    requires ResizeRaises(image)
    requires |outcomes| == retries && OutcomesMatchImage(image, outcomes)
    ensures !ok && trace.attempts == retries && trace.posts == 0 && trace.sleeps == retries
    ensures trace.writes == []
  {
    ok, trace := ProcessImage(fileName, image, dirs, outcomes, retries);
  }

  /** A service that fails the first two attempts after the POST and then
      answers: with the default retry count the item succeeds after exactly
      three POSTs and two pauses, and its two files are written. */
  method SucceedsOnThirdAttempt(fileName: string, image: Dims, dirs: OutputPaths, outcomes: seq<Attempt>)
    returns (ok: bool, trace: Trace)
    requires !ResizeRaises(image)
    requires |outcomes| == 3 && outcomes[2].Succeeded()
    requires forall i :: 0 <= i < 2 ==> outcomes[i].Posted() && !outcomes[i].Succeeded()
    ensures ok && trace.attempts == 3 && trace.posts == 3 && trace.sleeps == 2
    ensures trace.writes == SavedOutputs(fileName, image, dirs)
  {
    ok, trace := ProcessImage(fileName, image, dirs, outcomes, DefaultRetries);
    assert outcomes[..trace.attempts] == outcomes;
    CountPostsAllPosted(outcomes);
  }

  /** A service that never answers 200: exactly `retries` POSTs, a pause
      after each of them, failure and nothing written. */
  method AlwaysServerError(fileName: string, image: Dims, dirs: OutputPaths, outcomes: seq<Attempt>, retries: nat)
    returns (ok: bool, trace: Trace)
    requires !ResizeRaises(image)
    requires |outcomes| == retries
    requires forall i :: 0 <= i < |outcomes| ==> outcomes[i].Response? && outcomes[i].status != 200
    ensures !ok && trace.attempts == retries && trace.posts == retries && trace.sleeps == retries
    ensures trace.writes == []
  {
    ok, trace := ProcessImage(fileName, image, dirs, outcomes, retries);
    assert outcomes[..retries] == outcomes;
    CountPostsAllPosted(outcomes);
  }
}
