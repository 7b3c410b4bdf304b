/** The output layout: the two directories under the output root and the
    per-file paths inside them. `os.path.join` is modelled as the
    two-argument POSIX operation on strings; `BaseName` (POSIX
    `os.path.basename`) is not called by the pipeline and serves only to
    state which file name a path ends in. */
module Paths {

  const Separator: char := '/'

  /** The two output directories, computed once per run and shared by all
      items: resized images and masks. */
  datatype OutputPaths = OutputPaths(resized: string, masks: string)

  predicate IsAbsolute(p: string) {
    |p| > 0 && p[0] == Separator
  }

  /** Two-argument POSIX `os.path.join`: an absolute second part replaces the
      first; otherwise a separator is inserted unless the first part is empty
      or already ends with one. */
  function Join(dir: string, name: string): string {
    if IsAbsolute(name) then name
    else if dir == [] || dir[|dir| - 1] == Separator then dir + name
    else dir + [Separator] + name
  }

  /** POSIX `os.path.basename`: everything after the last separator. */
  function BaseName(p: string): string {
    if p == [] || p[|p| - 1] == Separator then []
    else BaseName(p[..|p| - 1]) + [p[|p| - 1]]
  }

  /** The joined path ends with the name and, unless the name is absolute,
      starts with the directory, with at most one separator between them. */
  lemma JoinKeepsParts(dir: string, name: string)
    ensures var p := Join(dir, name);
      |name| <= |p| && p[|p| - |name|..] == name &&
      (!IsAbsolute(name) ==> |dir| <= |p| <= |dir| + 1 + |name| && p[..|dir|] == dir)
  {
  }

  /** The base name is a suffix of the path and holds no separator. */
  lemma {:induction false} BaseNameIsLastComponent(p: string)
    ensures var b := BaseName(p);
      |b| <= |p| && p[|p| - |b|..] == b && Separator !in b
  {
    if p != [] && p[|p| - 1] != Separator {
      var init := p[..|p| - 1];
      BaseNameIsLastComponent(init);
      assert p == init + [p[|p| - 1]];
    }
  }

  /** A name without separators is its own base name after any prefix that
      is empty or ends with a separator. */
  lemma {:induction false} BaseNameAfterSeparator(prefix: string, name: string)
    requires prefix == [] || prefix[|prefix| - 1] == Separator
    requires Separator !in name
    ensures BaseName(prefix + name) == name
  {
    if name != [] {
      var init := name[..|name| - 1];
      assert (prefix + name)[..|prefix + name| - 1] == prefix + init;
      BaseNameAfterSeparator(prefix, init);
      assert init + [name[|name| - 1]] == name;
    }
  }

  /** Joining a directory with a plain file name keeps the file name
      recoverable: it is the base name of the joined path. */
  lemma BaseNameOfJoin(dir: string, name: string)
    requires Separator !in name
    ensures BaseName(Join(dir, name)) == name
  {
    if name == [] || !IsAbsolute(name) {
      if dir == [] || dir[|dir| - 1] == Separator {
        BaseNameAfterSeparator(dir, name);
      } else {
        assert dir + [Separator] + name == (dir + [Separator]) + name;
        BaseNameAfterSeparator(dir + [Separator], name);
      }
    }
  }

  /** Distinct plain file names give distinct paths in the same directory, so
      items of one batch never write over each other. */
  lemma JoinInjective(dir: string, a: string, b: string)
    requires Separator !in a && Separator !in b
    requires a != b
    ensures Join(dir, a) != Join(dir, b)
  {
    BaseNameOfJoin(dir, a);
    BaseNameOfJoin(dir, b);
  }

  /** The layout computed from the output root (the two joins in `main`). */
  function Layout(root: string): OutputPaths {
    OutputPaths(Join(root, "resized_images"), Join(root, "masks"))
  }

  /** The two output directories are named `resized_images` and `masks`
      and are different directories under the same root. */
  lemma LayoutNames(root: string)
    ensures BaseName(Layout(root).resized) == "resized_images"
    ensures BaseName(Layout(root).masks) == "masks"
    ensures Layout(root).resized != Layout(root).masks
  {
    BaseNameOfJoin(root, "resized_images");
    BaseNameOfJoin(root, "masks");
    // the two joins add the same prefix to names of different lengths
    assert |Layout(root).resized| == |Layout(root).masks| + 9;
  }

  /** Where an item's resized image is written. */
  function ImagePath(dirs: OutputPaths, fileName: string): string {
    Join(dirs.resized, fileName)
  }

  /** Where an item's mask is written. */
  function MaskPath(dirs: OutputPaths, fileName: string): string {
    Join(dirs.masks, fileName)
  }

  /** The file name is the correlation key: the resized image and the mask
      of one item carry the same unchanged name, in two different places,
      one in each output directory. */
  lemma OutputsCorrelate(root: string, fileName: string)
    requires Separator !in fileName
    ensures BaseName(ImagePath(Layout(root), fileName)) == fileName
    ensures BaseName(MaskPath(Layout(root), fileName)) == fileName
    ensures ImagePath(Layout(root), fileName) != MaskPath(Layout(root), fileName)
    ensures ImagePath(Layout(root), fileName)[..|Layout(root).resized|] == Layout(root).resized
    ensures MaskPath(Layout(root), fileName)[..|Layout(root).masks|] == Layout(root).masks
  {
    var dirs := Layout(root);
    LayoutNames(root);
    BaseNameOfJoin(dirs.resized, fileName);
    BaseNameOfJoin(dirs.masks, fileName);
    JoinKeepsParts(dirs.resized, fileName);
    JoinKeepsParts(dirs.masks, fileName);
    // both directories end in a non-separator character, so each path is
    // directory + "/" + name, and the two differ in length
    assert !IsAbsolute(fileName);
  }
}
