/** The per-file tests and the title rule shared by the project and
    documentation listings, written out by hand in place of the regular
    expressions of the source:
      - the extension filters `/\.(jpe?g|png|webp)$/i` and
        `/\.(jpe?g|png|webp|pdf)$/i`,
      - `file.replace(/\.[^/.]+$/, '')`, which removes a final extension,
      - `.replace(/[-_]/g, ' ')`, which turns every separator into a space. */
module FileNames {

  /** The two extension filters that occur in the listings. */
  datatype Accepted = Images | ImagesAndPdf

  /** ASCII lower-casing: the only case folding a non-unicode `/i` regular
      expression applies to the ASCII letters of these patterns. */
  function Lower(c: char): (r: char)
    ensures 'A' <= c <= 'Z' ==> r as int == c as int + 32
    ensures !('A' <= c <= 'Z') ==> r == c
  {
    if 'A' <= c <= 'Z' then (c as int + 32) as char else c
  }

  /** `name` ends in `suffix`, compared case-insensitively; `suffix` is
      written in lower case. */
  predicate EndsWithIgnoringCase(name: string, suffix: string) {
    |suffix| <= |name| &&
    forall i :: 0 <= i < |suffix| ==> Lower(name[|name| - |suffix| + i]) == suffix[i]
  }

  /** `/\.(jpe?g|png|webp)$/i.test(name)` */
  predicate IsImageName(name: string) {
    EndsWithIgnoringCase(name, ".jpg") || EndsWithIgnoringCase(name, ".jpeg") ||
    EndsWithIgnoringCase(name, ".png") || EndsWithIgnoringCase(name, ".webp")
  }

  /** The `pdf` alternative of the documentation filter. */
  predicate IsPdfName(name: string) {
    EndsWithIgnoringCase(name, ".pdf")
  }

  predicate Accepts(accepted: Accepted, name: string) {
    match accepted
    case Images => IsImageName(name)
    case ImagesAndPdf => IsImageName(name) || IsPdfName(name)
  }

  /** `files.filter(file => pattern.test(file))` */
  function FilterNames(files: seq<string>, accepted: Accepted): (r: seq<string>)
    ensures |r| <= |files|
    ensures forall f :: f in r <==> f in files && Accepts(accepted, f)
  {
    if files == [] then []
    else if Accepts(accepted, files[0]) then [files[0]] + FilterNames(files[1..], accepted)
    else FilterNames(files[1..], accepted)
  }

  /** The same filter splits over a concatenation of listings: the order of
      the input is kept. */
  lemma {:induction false} FilterNamesAppend(a: seq<string>, b: seq<string>, accepted: Accepted)
    ensures FilterNames(a + b, accepted) == FilterNames(a, accepted) + FilterNames(b, accepted)
  {
    if a == [] {
      assert a + b == b;
    } else {
      assert (a + b)[1..] == a[1..] + b;
      FilterNamesAppend(a[1..], b, accepted);
    }
  }

  /** The position of the last '.' of `s`, or -1 when there is none. */
  function LastDot(s: string): (i: int)
    ensures -1 <= i < |s|
    ensures 0 <= i ==> s[i] == '.'
    ensures forall j :: i < j < |s| ==> s[j] != '.'
  {
    if s == [] then -1
    else if s[|s| - 1] == '.' then |s| - 1
    else LastDot(s[..|s| - 1])
  }

  /** `name.replace(/\.[^/.]+$/, '')`. The pattern can only match from the
      last dot: any earlier dot is followed by a later one, which `[^/.]`
      rejects. It matches there when at least one character follows that
      dot and none of the following characters is '/'. */
  function StripExtension(name: string): (r: string)
    ensures r <= name
    ensures |r| < |name| ==> name[|r|] == '.' && '.' !in name[|r| + 1..]
  {
    var i := LastDot(name);
    if 0 <= i < |name| - 1 && '/' !in name[i + 1..] then name[..i] else name
  }

  /** `.replace(/[-_]/g, ' ')`, one character at a time. */
  function SeparatorsToSpaces(s: string): (r: string)
    ensures |r| == |s|
    ensures forall i :: 0 <= i < |s| ==> r[i] == (if s[i] == '-' || s[i] == '_' then ' ' else s[i])
  {
    if s == [] then []
    else [if s[0] == '-' || s[0] == '_' then ' ' else s[0]] + SeparatorsToSpaces(s[1..])
  }

  /** The title every listing derives from a file name. */
  function Title(name: string): (r: string)
    ensures '-' !in r && '_' !in r
    ensures |r| == |StripExtension(name)|
  {
    SeparatorsToSpaces(StripExtension(name))
  }

  /** Replacing the separators a second time changes nothing. */
  lemma SeparatorsToSpacesIdempotent(s: string)
    ensures SeparatorsToSpaces(SeparatorsToSpaces(s)) == SeparatorsToSpaces(s)
  {
  }

  /** Inverse of adding an extension: when `name` is `base + "." + ext`
      with a non-empty `ext` that holds no '.' and no '/', the strip
      gives back exactly `base`. */
  lemma {:induction false} StripExtensionOfJoin(base: string, ext: string)
    requires ext != [] && '.' !in ext && '/' !in ext
    ensures StripExtension(base + "." + ext) == base
  {
    var name := base + "." + ext;
    LastDotOfJoin(base, ext);
    assert name[|base| + 1..] == ext;
    assert name[..|base|] == base;
  }

  lemma {:induction false} LastDotOfJoin(base: string, ext: string)
    requires '.' !in ext
    ensures LastDot(base + "." + ext) == |base|
  {
    var name := base + "." + ext;
    assert name[|base|] == '.';
    assert forall j :: |base| < j < |name| ==> name[j] == ext[j - |base| - 1];
  }

  /** The suffix an accepted name matched, as written in the pattern. */
  function MatchedSuffix(accepted: Accepted, name: string): (r: string)
    requires Accepts(accepted, name)
    ensures r in [".jpg", ".jpeg", ".png", ".webp", ".pdf"]
    ensures EndsWithIgnoringCase(name, r)
  {
    if EndsWithIgnoringCase(name, ".jpg") then ".jpg"
    else if EndsWithIgnoringCase(name, ".jpeg") then ".jpeg"
    else if EndsWithIgnoringCase(name, ".png") then ".png"
    else if EndsWithIgnoringCase(name, ".webp") then ".webp"
    else ".pdf"
  }

  /** A name that ends, in any case, in a dot and letters loses exactly
      that suffix to the strip. */
  lemma {:induction false} StripMatchedSuffix(name: string, suffix: string)
    requires EndsWithIgnoringCase(name, suffix)
    requires |suffix| >= 2 && suffix[0] == '.'
    requires forall j :: 1 <= j < |suffix| ==> 'a' <= suffix[j] <= 'z'
    ensures StripExtension(name) == name[..|name| - |suffix|]
  {
    var n, m := |name|, |suffix|;
    var base, ext := name[..n - m], name[n - m + 1..];
    assert Lower(name[n - m + 0]) == suffix[0];
    assert name[n - m] == '.';
    forall j | 0 <= j < |ext| ensures ext[j] != '.' && ext[j] != '/' {
      assert Lower(name[n - m + (j + 1)]) == suffix[j + 1];
    }
    assert name == base + "." + ext;
    StripExtensionOfJoin(base, ext);
  }

  /** Every name a listing filter accepts has a final extension that the
      strip removes: the result is the name without the matched suffix. */
  lemma AcceptedNameStrip(accepted: Accepted, name: string)
    requires Accepts(accepted, name)
    ensures StripExtension(name) == name[..|name| - |MatchedSuffix(accepted, name)|]
  {
    StripMatchedSuffix(name, MatchedSuffix(accepted, name));
  }

  /** For an accepted name the title is as long as the name less its
      final dot and extension, since each separator becomes exactly one
      space. */
  lemma TitleLength(accepted: Accepted, name: string)
    requires Accepts(accepted, name)
    ensures |Title(name)| == |name| - |MatchedSuffix(accepted, name)|
  {
    AcceptedNameStrip(accepted, name);
  }

  lemma {:induction false} LastCharOfSuffix(name: string, suffix: string)
    requires EndsWithIgnoringCase(name, suffix) && suffix != []
    ensures Lower(name[|name| - 1]) == suffix[|suffix| - 1]
  {
    var i := |suffix| - 1;
    assert Lower(name[|name| - |suffix| + i]) == suffix[i];
  }

  /** A pdf name is never an image name, so the two documentation filters
      differ exactly on the pdf files. */
  lemma {:induction false} PdfIsNotImage(name: string)
    requires IsPdfName(name)
    ensures !IsImageName(name)
  {
    LastCharOfSuffix(name, ".pdf");
    if EndsWithIgnoringCase(name, ".jpg") {
      LastCharOfSuffix(name, ".jpg");
    } else if EndsWithIgnoringCase(name, ".jpeg") {
      LastCharOfSuffix(name, ".jpeg");
    } else if EndsWithIgnoringCase(name, ".png") {
      LastCharOfSuffix(name, ".png");
    } else if EndsWithIgnoringCase(name, ".webp") {
      LastCharOfSuffix(name, ".webp");
    }
  }

  /** Sample inputs from the listings' own domain. */
  lemma TitleExamples()
    ensures Title("a-b.PNG") == "a b"
    ensures StripExtension("archive.tar.gz") == "archive.tar"
  {
    StripExtensionOfJoin("a-b", "PNG");
    assert "a-b.PNG" == "a-b" + "." + "PNG";
    StripExtensionOfJoin("archive.tar", "gz");
    assert "archive.tar.gz" == "archive.tar" + "." + "gz";
  }
}
