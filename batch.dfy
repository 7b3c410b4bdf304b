/** The batch run in `main`: compute the layout, filter the listing, and
    process every eligible file, whatever happens to the others. The worker
    pool is replaced by processing the files one after another in listing
    order; each item writes only under its own name. */
module Batch {
  import opened Resize
  import opened Paths
  import opened InputFilter
  import opened Segmentation

  /** Every name kept by the filter comes from the listing, so it is a
      plain name when the listing's are. */
  lemma ImageFilesArePlain(listing: seq<string>)
    requires forall i :: 0 <= i < |listing| ==> Separator !in listing[i]
    ensures forall i :: 0 <= i < |ImageFiles(listing)| ==> Separator !in ImageFiles(listing)[i]
  {
  }

  /** A written file is accounted for by `names`: its base name is one of
      them, that file's attempts succeed, and the file is one of the two it
      saves. */
  predicate WrittenFor(w: FileWrite, names: seq<string>, images: string -> Dims,
                       service: string -> seq<Attempt>, dirs: OutputPaths)
  {
    var name := BaseName(w.Path());
    name in names && SucceedsWithin(service(name), DefaultRetries) &&
    w in SavedOutputs(name, images(name), dirs)
  }

  /** The files one item leaves behind: its two saved files when its
      attempts succeed, nothing otherwise. */
  function ItemWrites(name: string, images: string -> Dims,
                      service: string -> seq<Attempt>, dirs: OutputPaths): seq<FileWrite>
  {
    if SucceedsWithin(service(name), DefaultRetries) then SavedOutputs(name, images(name), dirs) else []
  }

  /** The files a batch writes when it processes `names` in order. */
  function BatchWrites(names: seq<string>, images: string -> Dims,
                       service: string -> seq<Attempt>, dirs: OutputPaths): seq<FileWrite>
  {
    if names == [] then []
    else BatchWrites(names[..|names| - 1], images, service, dirs) + ItemWrites(names[|names| - 1], images, service, dirs)
  }

  /** The files of one successful plain-named item are accounted for by any
      names that include it. */
  lemma ItemWritesAccounted(name: string, names: seq<string>, images: string -> Dims,
                            service: string -> seq<Attempt>, root: string, i: nat)
    requires Separator !in name && name in names
    requires i < |ItemWrites(name, images, service, Layout(root))|
    ensures WrittenFor(ItemWrites(name, images, service, Layout(root))[i], names, images, service, Layout(root))
  {
    SavedAreWrittenFor(name, names, images, service, root);
    assert i == 0 || i == 1;
  }

  /** Every file a batch writes belongs to a successful item of the batch,
      under that item's own name. */
  lemma {:induction false} BatchWritesAccounted(names: seq<string>, images: string -> Dims,
                                                service: string -> seq<Attempt>, root: string, i: nat)
    requires forall j :: 0 <= j < |names| ==> Separator !in names[j]
    requires i < |BatchWrites(names, images, service, Layout(root))|
    ensures WrittenFor(BatchWrites(names, images, service, Layout(root))[i], names, images, service, Layout(root))
  {
    var dirs := Layout(root);
    var init, last := names[..|names| - 1], names[|names| - 1];
    var before := BatchWrites(init, images, service, dirs);
    var item := ItemWrites(last, images, service, dirs);
    assert names == init + [last];
    if i < |before| {
      BatchWritesAccounted(init, images, service, root, i);
      WrittenForGrows(before[i], init, [last], images, service, dirs);
    } else {
      ItemWritesAccounted(last, names, images, service, root, i - |before|);
    }
  }

  /** An item whose attempts all fail leaves no file under its name in
      either output directory, whatever the other items do. */
  lemma FailedItemWritesNothing(names: seq<string>, images: string -> Dims,
                                service: string -> seq<Attempt>, root: string, name: string)
    requires forall j :: 0 <= j < |names| ==> Separator !in names[j]
    requires !SucceedsWithin(service(name), DefaultRetries)
    ensures forall i :: 0 <= i < |BatchWrites(names, images, service, Layout(root))| ==>
      BaseName(BatchWrites(names, images, service, Layout(root))[i].Path()) != name
  {
    forall i | 0 <= i < |BatchWrites(names, images, service, Layout(root))|
      ensures BaseName(BatchWrites(names, images, service, Layout(root))[i].Path()) != name
    {
      BatchWritesAccounted(names, images, service, root, i);
    }
  }

  /** A successful item of the batch has both its files written. */
  lemma {:induction false} BatchWritesComplete(names: seq<string>, images: string -> Dims,
                                               service: string -> seq<Attempt>, dirs: OutputPaths, k: nat)
    requires k < |names| && SucceedsWithin(service(names[k]), DefaultRetries)
    ensures SavedOutputs(names[k], images(names[k]), dirs)[0] in BatchWrites(names, images, service, dirs)
    ensures SavedOutputs(names[k], images(names[k]), dirs)[1] in BatchWrites(names, images, service, dirs)
  {
    var init := names[..|names| - 1];
    if k < |init| {
      BatchWritesComplete(init, images, service, dirs, k);
      assert init[k] == names[k];
    }
  }

  /** Accounting survives adding names. */
  lemma WrittenForGrows(w: FileWrite, names: seq<string>, more: seq<string>, images: string -> Dims,
                        service: string -> seq<Attempt>, dirs: OutputPaths)
    requires WrittenFor(w, names, images, service, dirs)
    ensures WrittenFor(w, names + more, images, service, dirs)
  {
  }

  /** The two files saved for a successful plain name are accounted for by
      any names that include it. */
  lemma SavedAreWrittenFor(name: string, names: seq<string>, images: string -> Dims,
                           service: string -> seq<Attempt>, root: string)
    requires Separator !in name && name in names
    requires SucceedsWithin(service(name), DefaultRetries)
    ensures WrittenFor(SavedOutputs(name, images(name), Layout(root))[0], names, images, service, Layout(root))
    ensures WrittenFor(SavedOutputs(name, images(name), Layout(root))[1], names, images, service, Layout(root))
  {
    var saved := SavedOutputs(name, images(name), Layout(root));
    SavedOutputsCorrelate(name, images(name), root);
    assert saved[0] in saved && saved[1] in saved;
  }

  /** For a listing of plain names, every file the run writes belongs to a
      successful eligible file of the listing, under that file's own name,
      as one of its two saved files. */
  lemma RunWritesAccounted(listing: seq<string>, images: string -> Dims,
                           service: string -> seq<Attempt>, root: string)
    requires forall i :: 0 <= i < |listing| ==> Separator !in listing[i]
    ensures var files := ImageFiles(listing);
      forall i :: 0 <= i < |BatchWrites(files, images, service, Layout(root))| ==>
        WrittenFor(BatchWrites(files, images, service, Layout(root))[i], files, images, service, Layout(root))
  {
    var files := ImageFiles(listing);
    ImageFilesArePlain(listing);
    forall i | 0 <= i < |BatchWrites(files, images, service, Layout(root))|
      ensures WrittenFor(BatchWrites(files, images, service, Layout(root))[i], files, images, service, Layout(root))
    {
      BatchWritesAccounted(files, images, service, root, i);
    }
  }

  /** One dispatched item: the input image read for `name` is processed
      with the default retry count. */
  method ProcessItem(name: string, images: string -> Dims, service: string -> seq<Attempt>, dirs: OutputPaths)
    returns (ok: bool, writes: seq<FileWrite>)
    requires DefaultRetries <= |service(name)|
    requires OutcomesMatchImage(images(name), service(name))
    ensures ok <==> SucceedsWithin(service(name), DefaultRetries)
    ensures writes == ItemWrites(name, images, service, dirs)
  {
    var image := images(name);
    var trace;
    ok, trace := ProcessImage(name, image, dirs, service(name), DefaultRetries);
    writes := trace.writes;
  }

  /** The dispatch loop of `main`: every file is processed, whatever
      happened to the ones before it. `results[k]` is the outcome for
      `files[k]`. */
  method DispatchAll(files: seq<string>, images: string -> Dims, service: string -> seq<Attempt>, dirs: OutputPaths)
    returns (results: seq<bool>, writes: seq<FileWrite>)
    requires forall name :: DefaultRetries <= |service(name)|
    requires forall name :: OutcomesMatchImage(images(name), service(name))
    ensures |results| == |files|
    ensures forall k :: 0 <= k < |files| ==> (results[k] <==> SucceedsWithin(service(files[k]), DefaultRetries))
    ensures writes == BatchWrites(files, images, service, dirs)
  {
    results, writes := [], [];
    for k := 0 to |files|
      invariant |results| == k
      invariant forall j :: 0 <= j < k ==> (results[j] <==> SucceedsWithin(service(files[j]), DefaultRetries))
      invariant writes == BatchWrites(files[..k], images, service, dirs)
    {
      var name := files[k];
      var ok, itemWrites := ProcessItem(name, images, service, dirs);
      assert files[..k + 1][..k] == files[..k];
      assert BatchWrites(files[..k + 1], images, service, dirs) ==
        BatchWrites(files[..k], images, service, dirs) + ItemWrites(name, images, service, dirs);
      results := results + [ok];
      writes := writes + itemWrites;
    }
    assert files[..|files|] == files;
  }

  /** The batch run: the eligible files of `listing`, processed with outputs
      under `root`. `images(name)` is what reading the input file gives and
      `service(name)` the outcomes of the successive attempts for it. */
  method RunBatch(listing: seq<string>, root: string, images: string -> Dims, service: string -> seq<Attempt>)
    returns (results: seq<bool>, writes: seq<FileWrite>)
    requires forall name :: DefaultRetries <= |service(name)|
    requires forall name :: OutcomesMatchImage(images(name), service(name))
    ensures |results| == |ImageFiles(listing)|
    ensures forall k :: 0 <= k < |results| ==>
      (results[k] <==> SucceedsWithin(service(ImageFiles(listing)[k]), DefaultRetries))
    ensures writes == BatchWrites(ImageFiles(listing), images, service, Layout(root))
  {
    var dirs := Layout(root);
    var files := ImageFiles(listing);
    results, writes := DispatchAll(files, images, service, dirs);
  }
}
