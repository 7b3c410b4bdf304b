# Image segmentation pipeline — a Dafny model

This project models the core of a small batch tool that downsizes every image in a
directory, sends it to a remote background-segmentation service over HTTP, and saves
the resized image and the returned mask under the same file name in two output
directories. The source is one Python file, `image_segmentation_pipeline.py`. The model
covers four parts:

- the resize policy (`autoresize`), as a pure function on image dimensions;
- the per-item retry loop (`process_image`), as a method with a `while` loop. The
  outcome of each attempt is an input. The method returns a trace of the attempts
  made, the POSTs issued, the one-second pauses taken and the files written;
- the extension filter applied to the directory listing in `main`;
- the output layout: the two directories `resized_images` and `masks` under the output
  root, and the per-file paths in them. `os.path.join` is modelled as the
  two-argument POSIX operation. The pipeline never calls `os.path.basename`; the
  model defines it (`BaseName`, the POSIX one-argument operation) only to state
  which file name a path ends in.

The dispatch loop of `main` is modelled too, processing the eligible files one after
another. The written files are specified by a function, `BatchWrites`. Lemmas show that
every written file belongs to a successful item under that item's own name, that a
successful item has both of its files written, and that a failed item leaves nothing.

Files:

- `resize.dfy`: module `Resize`.
- `paths.dfy`: module `Paths`.
- `input_filter.dfy`: module `InputFilter`.
- `segmentation.dfy`: module `Segmentation`, the per-item processing.
- `batch.dfy`: module `Batch`, the run over the listing.

Modelling choices:

- Dimensions are `nat`. The source multiplies by the float factors 0.5 and 0.25 and then
  truncates with `int(...)`; the model divides by 2 or 4. `AutoResizeMatchesFactor`
  proves that this equals truncating the real-valued product.
- Attempt outcomes are `Response(status)` or `Raised(failure)`. `Response(200)` stands
  for an attempt that also got through JSON parsing, base64 and mask decoding and both
  writes. `Raised(EncodeError)` fails before `requests.post`, so it issues no POST.
  This includes an unreadable input, whose `None` makes `autoresize` raise, and a
  tall image too narrow to resize: above 1000 rows, a width below the divisor
  (1 column above 1000 rows, up to 3 above 2000) gives a target size with no
  columns, which the codec library rejects by raising. `ResizeRaises` names that
  case, and `ProcessImage` requires that the outcomes of such an image are all
  `Raised(EncodeError)` (`OutcomesMatchImage`).
  `Raised(NetworkError)` is raised by the POST. `Raised(ResponseError)` is raised after
  a 200.
- `ProcessImage` requires `retries <= |outcomes|`, so the environment supplies an
  outcome for every attempt that may happen. This limits only the model's input, not the
  source's callers.
- The model follows the code in two places where one might expect otherwise. A write that
  raises is caught inside the attempt loop, so it is a failed attempt that is retried,
  not an immediate failure of the item. An unreadable input costs `retries` attempts
  and `retries` pauses before the item fails.

## Model

| member | source | states |
|---|---|---|
| Resize.AutoResize | image_segmentation_pipeline.py:11-23 | the result never exceeds the input in either dimension; the image is unchanged exactly when its height is at most 1000; a resized image keeps between 500 rows and half the original rows |
| Resize.Factor | image_segmentation_pipeline.py:16-19 | the factor is 1, 0.5 or 0.25, and it is 1 exactly when the height is at most 1000 |
| Resize.Truncate | image_segmentation_pipeline.py:21 | `int()` of a non-negative product is the largest integer not above it |
| Resize.Divisor | image_segmentation_pipeline.py:16-19 | 1, 2 or 4, the reciprocal of the source's factor |
| Resize.ResizeRaises | image_segmentation_pipeline.py:16-21 | definition: the resize of a tall image asks for zero columns |
| Resize.ResizedSidesPositive | image_segmentation_pipeline.py:16-21 | a non-empty image keeps some rows, and keeps some columns exactly when the resize does not raise, i.e. unless it is tall and narrower than the divisor |
| Resize.NarrowTallExamples | image_segmentation_pipeline.py:16-21 | 1500x1 asks for 750x0 and raises; 2500x3 raises, 2500x4 does not; nothing at most 1000 rows raises |
| Resize.ScaleByFactor | image_segmentation_pipeline.py:16-21 | truncating `n * factor` equals integer division of `n` by 2 or 4 |
| Resize.AutoResizeMatchesFactor | image_segmentation_pipeline.py:15-23 | height <= 1000 leaves the image as it is; otherwise the new size is `(int(height*factor), int(width*factor))` with the source's real factor |
| Resize.FactorNonIncreasing | image_segmentation_pipeline.py:16-19 | a taller image never gets a larger factor |
| Resize.ResultWithinBound | image_segmentation_pipeline.py:16-21 | the resized height is at most 1000 exactly when the input height is at most 4003 |
| Resize.AutoResizeIdempotentIff | image_segmentation_pipeline.py:11-23 | resizing the result again changes nothing exactly when the input height is at most 4003 |
| Paths.Join | image_segmentation_pipeline.py:45-46 | definition: two-argument POSIX `os.path.join` |
| Paths.JoinKeepsParts | image_segmentation_pipeline.py:45-46 | a joined path ends with the name and, for a relative name, starts with the directory, with at most one separator added |
| Paths.BaseNameIsLastComponent | image_segmentation_pipeline.py:45-46 | a base name is a suffix of the path and contains no separator |
| Paths.BaseNameAfterSeparator | image_segmentation_pipeline.py:45-46 | a plain name after an empty or separator-terminated prefix is the base name |
| Paths.BaseNameOfJoin | image_segmentation_pipeline.py:45-46 | the file name is recovered as the base name of the joined path |
| Paths.JoinInjective | image_segmentation_pipeline.py:45-46 | distinct plain file names give distinct paths in one directory |
| Paths.Layout | image_segmentation_pipeline.py:70-71 | definition: the two output directories joined under the output root |
| Paths.LayoutNames | image_segmentation_pipeline.py:70-71 | the output directories are named `resized_images` and `masks` and are different |
| Paths.ImagePath | image_segmentation_pipeline.py:45 | definition: the resized image's path in the resized-images directory |
| Paths.MaskPath | image_segmentation_pipeline.py:46 | definition: the mask's path in the masks directory |
| Paths.OutputsCorrelate | image_segmentation_pipeline.py:45-46 | an item's image and mask paths both have the unchanged file name as base name; they are different paths, each inside its own output directory |
| InputFilter.EndsWith | image_segmentation_pipeline.py:78 | definition: `str.endswith` for one suffix |
| InputFilter.IsImageName | image_segmentation_pipeline.py:78 | definition: `endswith` with the tuple of the three suffixes |
| InputFilter.ImageFiles | image_segmentation_pipeline.py:78 | the filtered listing is never longer than the listing |
| InputFilter.ImageFilesKeepsExactly | image_segmentation_pipeline.py:78 | a name is kept iff it is listed and ends with `.png`, `.jpg` or `.jpeg` (case-sensitive), and as many times as it is listed |
| InputFilter.ImageFilesOrdered | image_segmentation_pipeline.py:78 | the kept names are a subsequence of the listing, so listing order is preserved |
| InputFilter.ImageFilesAppend | image_segmentation_pipeline.py:78 | filtering a concatenation is the concatenation of the filtered parts |
| InputFilter.ImageFilesIdempotent | image_segmentation_pipeline.py:78 | filtering the filtered listing returns it unchanged |
| InputFilter.MixedListingExample | image_segmentation_pipeline.py:78 | `a.png, b.txt, c.JPEG, d.jpg` filters to `a.png, d.jpg`; upper-case `.JPEG` is dropped |
| Segmentation.AttemptLimit | image_segmentation_pipeline.py:32 | definition: the length of `range(retries)` |
| Segmentation.CountPosts | image_segmentation_pipeline.py:38 | never more POSTs than attempts |
| Segmentation.OutcomesMatchImage | image_segmentation_pipeline.py:32-35 | definition: when resizing the image raises, every attempt raises before the POST |
| Segmentation.SavedOutputs | image_segmentation_pipeline.py:45-48 | definition: the resized image to its path, then the mask to its path |
| Segmentation.SavedOutputsCorrelate | image_segmentation_pipeline.py:45-48 | the two files of a success both carry the item's file name and are written to different paths |
| Segmentation.ProcessImage | image_segmentation_pipeline.py:26-59 | returns True iff one of the first `retries` attempts succeeds; stops at the first success; at most `retries` attempts, exactly that many when all fail, and none at all with no POST, pause or write when `retries <= 0`; an image whose resize raises fails with no POST; POSTs are those attempts that reached the POST; one pause after every failed attempt including the last; writes the resized image and the mask under the file name only on success, nothing otherwise |
| Segmentation.CountPostsAllPosted | image_segmentation_pipeline.py:38 | when every attempt reaches the POST, each issues exactly one |
| Segmentation.CountPostsNonePosted | image_segmentation_pipeline.py:34-35 | when every attempt fails before the POST, none is issued |
| Segmentation.TooNarrowToResize | image_segmentation_pipeline.py:32-59 | a tall image too narrow to resize fails after `retries` attempts and pauses, with no POST and no file written |
| Segmentation.UnreadableInput | image_segmentation_pipeline.py:32-35 | when every attempt raises before the POST, as for an unreadable input (represented only through its outcomes), the item fails after `retries` attempts and pauses, with no POST and no file written |
| Segmentation.SucceedsOnThirdAttempt | image_segmentation_pipeline.py:32-57 | two failed POSTs then a success: True after exactly 3 POSTs and 2 pauses, both files written |
| Segmentation.AlwaysServerError | image_segmentation_pipeline.py:52-59 | a service that never answers 200: False after exactly `retries` POSTs and `retries` pauses, nothing written |
| Batch.ImageFilesArePlain | image_segmentation_pipeline.py:78 | names kept from a listing of plain names are plain |
| Batch.ItemWrites | image_segmentation_pipeline.py:84-86 | definition: one item's two saved files when its attempts succeed, nothing otherwise |
| Batch.BatchWrites | image_segmentation_pipeline.py:83-86 | definition: the item writes of the files in listing order |
| Batch.WrittenForGrows | image_segmentation_pipeline.py:83-86 | a written file stays accounted for when more items are processed |
| Batch.SavedAreWrittenFor | image_segmentation_pipeline.py:45-48 | both saved files of a successful item belong to that item |
| Batch.ItemWritesAccounted | image_segmentation_pipeline.py:45-48 | each file an item writes belongs to that item |
| Batch.BatchWritesAccounted | image_segmentation_pipeline.py:83-92 | every file the batch writes belongs to a successful eligible item: its base name is that item's name, and it is one of that item's two files |
| Batch.FailedItemWritesNothing | image_segmentation_pipeline.py:83-92 | an item whose attempts all fail leaves no file under its name, whatever the other items do |
| Batch.BatchWritesComplete | image_segmentation_pipeline.py:83-92 | every successful item has both its resized image and its mask written |
| Batch.RunWritesAccounted | image_segmentation_pipeline.py:78-86 | for a listing of plain names, every file the run writes belongs to a successful file kept by the filter, under its own name, as one of its two saved files |
| Batch.ProcessItem | image_segmentation_pipeline.py:84-86 | one dispatched item succeeds iff its attempts succeed within the default 3, and leaves exactly its item writes |
| Batch.DispatchAll | image_segmentation_pipeline.py:83-92 | every file is processed regardless of the others' outcomes; the k-th result is the k-th file's outcome; the written files are the batch writes |
| Batch.RunBatch | image_segmentation_pipeline.py:70-92 | the run over the filtered listing under the computed layout: one result per eligible file, in listing order, and the writes of the batch |

## Left out

- Pixels and the codec calls (`cv2.resize`, `imencode`, `imdecode`, `imread`, `imwrite`) are not modelled. Only dimensions and the fact that a file was written are.
- The HTTP POST, multipart construction, JSON parsing and base64 decoding are collapsed into the per-attempt outcome, which is an input.
- The mask's dimensions are whatever the service returns, so the model does not state that they match the resized image.
- The `ThreadPoolExecutor` with two workers and `as_completed`: the model processes the files sequentially in listing order. Completion order and interleaving are not modelled. Each item writes only under its own name (`JoinInjective`), but the model does not prove that the result is the same under every interleaving.
- `time.sleep` and the elapsed-time report: each pause is a counter, and wall-clock time is not modelled.
- `argparse`, `os.makedirs` and `os.listdir`: the listing, the output root and the service URL are inputs, and the output directories are assumed to exist. The service URL and its default do not affect the model.
- Each attempt is assumed to end. `requests.post` is called without a timeout, so a POST that never answers blocks its item, and with it the whole batch, forever. The model describes only runs in which every POST returns, so `ProcessImage` always returns and `DispatchAll` and `RunBatch` always give one result per file.
- Logging with `print` is not modelled.
- The partial write, where the first `imwrite` succeeds and the second raises: the model treats any raise after a 200 as a failed attempt that wrote nothing. The first file may in fact remain on disk.
- `cv2.imwrite` reports many failures by returning False rather than raising. The source ignores that value, so such an attempt still counts as a success. The model does not represent a write that silently fails.
- Resize.AutoResize: for a tall image too narrow to resize it returns a size with zero columns instead of raising; the raise is carried by `ResizeRaises` and by `ProcessImage` requiring `OutcomesMatchImage`, so no such size is ever written.
- Resize.AutoResize: float arithmetic is assumed exact. `int(n * 0.5)` and `int(n * 0.25)` equal `n // 2` and `n // 4` only while `n` is exactly representable as a double. This is far beyond any real image size.
- Posix path handling only: `os.path.join` on other platforms uses other separators.
