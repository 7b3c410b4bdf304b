/** The eligibility filter `main` applies to the input directory listing:
    keep the names that end with `.png`, `.jpg` or `.jpeg`, compared
    case-sensitively, in listing order. */
module InputFilter {

  /** Python's `str.endswith` for one suffix. */
  predicate EndsWith(s: string, suffix: string) {
    |suffix| <= |s| && s[|s| - |suffix|..] == suffix
  }

  /** `endswith(('.png', '.jpg', '.jpeg'))`: any of the three suffixes. */
  predicate IsImageName(name: string) {
    EndsWith(name, ".png") || EndsWith(name, ".jpg") || EndsWith(name, ".jpeg")
  }

  /** `sub` can be obtained from `s` by deleting elements, keeping order:
      either nothing is left to match, or the first element of `s` is kept
      (and matches) or dropped. */
  predicate IsSubsequence<T(==)>(sub: seq<T>, s: seq<T>)
    decreases |s|
  {
    sub == [] ||
    (s != [] &&
      ((sub[0] == s[0] && IsSubsequence(sub[1..], s[1..])) || IsSubsequence(sub, s[1..])))
  }

  /** The list comprehension over the directory listing. */
  function ImageFiles(listing: seq<string>): (r: seq<string>)
    ensures |r| <= |listing|
  {
    if listing == [] then []
    else if IsImageName(listing[0]) then [listing[0]] + ImageFiles(listing[1..])
    else ImageFiles(listing[1..])
  }

  /** A name is kept exactly when it is listed and has an image suffix, and
      it is kept as many times as it is listed. */
  lemma {:induction false} ImageFilesKeepsExactly(listing: seq<string>, name: string)
    ensures name in ImageFiles(listing) <==> name in listing && IsImageName(name)
    ensures multiset(ImageFiles(listing))[name] == if IsImageName(name) then multiset(listing)[name] else 0
  {
    if listing != [] {
      ImageFilesKeepsExactly(listing[1..], name);
      assert listing == [listing[0]] + listing[1..];
    }
  }

  /** The kept names appear in the same order as in the listing. */
  lemma {:induction false} ImageFilesOrdered(listing: seq<string>)
    ensures IsSubsequence(ImageFiles(listing), listing)
  {
    if listing != [] {
      ImageFilesOrdered(listing[1..]);
      var rest := ImageFiles(listing[1..]);
      if IsImageName(listing[0]) {
        assert ([listing[0]] + rest)[1..] == rest;
      }
    }
  }

  /** Filtering a concatenation filters each part: the order of the listing
      is kept across any split. */
  lemma {:induction false} ImageFilesAppend(a: seq<string>, b: seq<string>)
    ensures ImageFiles(a + b) == ImageFiles(a) + ImageFiles(b)
  {
    if a != [] {
      assert (a + b)[1..] == a[1..] + b;
      ImageFilesAppend(a[1..], b);
    } else {
      assert a + b == b;
    }
  }

  /** Every name the filter keeps passes it again, so filtering twice is
      filtering once. */
  lemma {:induction false} ImageFilesIdempotent(listing: seq<string>)
    ensures ImageFiles(ImageFiles(listing)) == ImageFiles(listing)
  {
    if listing != [] {
      ImageFilesIdempotent(listing[1..]);
      if IsImageName(listing[0]) {
        var rest := ImageFiles(listing[1..]);
        assert ([listing[0]] + rest)[1..] == rest;
      }
    }
  }

  /** A listing of `a.png`, `b.txt`, `c.JPEG`, `d.jpg` keeps `a.png` and
      `d.jpg`: the upper-case `.JPEG` suffix is not recognised. */
  lemma MixedListingExample()
    ensures ImageFiles(["a.png", "b.txt", "c.JPEG", "d.jpg"]) == ["a.png", "d.jpg"]
  {
  }
}
