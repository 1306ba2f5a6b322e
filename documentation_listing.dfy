/** The documentation listing: `getDocumentation` of
    src/app/data/documentation.ts (images and pdf files) and `GET` of
    src/app/api/documentation/route.ts (images only). The file system is
    replaced by the names `readdir` gives for the documentation
    directory, in its order. */
module DocumentationListing {
  import opened Media
  import opened FileNames

  /** `/documentation/${file}` */
  function DocumentPath(file: string): string {
    "/documentation/" + file
  }

  /** The reference listing: the accepted files in their listing order,
      with ids 1, 2, ... in that order. */
  function Documents(files: seq<string>, accepted: Accepted): seq<Item> {
    NumberedDocuments(FilterNames(files, accepted))
  }

  /** Kept file names numbered 1, 2, ... in order. */
  function NumberedDocuments(kept: seq<string>): seq<Item> {
    seq(|kept|, k requires 0 <= k < |kept| => Item(k + 1, DocumentPath(kept[k]), Title(kept[k])))
  }

  lemma NumberedDocumentsSnoc(kept: seq<string>, file: string)
    ensures NumberedDocuments(kept + [file]) ==
      NumberedDocuments(kept) + [Item(|kept| + 1, DocumentPath(file), Title(file))]
  {
    var l := NumberedDocuments(kept + [file]);
    var r := NumberedDocuments(kept) + [Item(|kept| + 1, DocumentPath(file), Title(file))];
    assert |l| == |r|;
    forall k | 0 <= k < |l| ensures l[k] == r[k] {
      assert (kept + [file])[k] == if k < |kept| then kept[k] else file;
    }
  }

  /** The image of each record, in order. */
  function ImagesOf(docs: seq<Item>): seq<string> {
    seq(|docs|, k requires 0 <= k < |docs| => docs[k].image)
  }

  /** The map with its `idCounter++` over the already filtered names. */
  method NumberDocuments(documentFiles: seq<string>) returns (documents: seq<Item>)
    ensures documents == NumberedDocuments(documentFiles)
  {
    var idCounter := 1;
    documents := [];
    var j := 0;
    while j < |documentFiles|
      invariant 0 <= j <= |documentFiles|
      invariant idCounter == j + 1
      invariant documents == NumberedDocuments(documentFiles[..j])
    {
      var file := documentFiles[j];
      NumberedDocumentsSnoc(documentFiles[..j], file);
      assert documentFiles[..j + 1] == documentFiles[..j] + [file];
      documents := documents + [Item(idCounter, "/documentation/" + file, Title(file))];
      idCounter := idCounter + 1;
      j := j + 1;
    }
    assert documentFiles[..j] == documentFiles;
  }

  /** The records are the kept files in order, the k-th with id k + 1,
      its `/documentation/` path and its title. */
  lemma DocumentsShape(files: seq<string>, accepted: Accepted)
    ensures |Documents(files, accepted)| == |FilterNames(files, accepted)|
    ensures forall k :: 0 <= k < |Documents(files, accepted)| ==>
      var file := FilterNames(files, accepted)[k];
      Documents(files, accepted)[k] == Item(k + 1, DocumentPath(file), Title(file))
  {
    var kept := FilterNames(files, accepted);
    var docs := Documents(files, accepted);
    forall k | 0 <= k < |docs| ensures docs[k] == Item(k + 1, DocumentPath(kept[k]), Title(kept[k])) {
    }
  }

  /** `getDocumentation`: jpg, jpeg, png, webp and pdf files, numbered. */
  method GetDocumentation(files: seq<string>) returns (allDocuments: seq<Item>)
    ensures allDocuments == Documents(files, ImagesAndPdf)
  {
    var documentFiles := FilterNames(files, ImagesAndPdf);
    allDocuments := NumberDocuments(documentFiles);
  }

  /** `GET` of the api route: jpg, jpeg, png and webp files, numbered. */
  method DocumentationRoute(files: seq<string>) returns (allDocuments: seq<Item>)
    ensures allDocuments == Documents(files, Images)
  {
    allDocuments := [];
    var documentProjects := NumberDocuments(FilterNames(files, Images));
    assert documentProjects == Documents(files, Images);
    assert allDocuments + documentProjects == documentProjects;
    allDocuments := allDocuments + documentProjects;
  }

  /** A path names a file of the listing exactly when that file is in the
      directory and passes the filter. */
  lemma DocumentPathListed(files: seq<string>, accepted: Accepted, file: string)
    ensures DocumentPath(file) in ImagesOf(Documents(files, accepted)) <==>
      file in files && Accepts(accepted, file)
  {
    var docs := Documents(files, accepted);
    var kept := FilterNames(files, accepted);
    if DocumentPath(file) in ImagesOf(docs) {
      var k :| 0 <= k < |docs| && ImagesOf(docs)[k] == DocumentPath(file);
      DocumentPathInjective(kept[k], file);
    }
    if file in kept {
      var k :| 0 <= k < |kept| && kept[k] == file;
      assert ImagesOf(docs)[k] == DocumentPath(file);
    }
  }

  lemma DocumentPathInjective(f: string, g: string)
    requires DocumentPath(f) == DocumentPath(g)
    ensures f == g
  {
    var n := |"/documentation/"|;
    assert DocumentPath(f)[n..] == f;
    assert DocumentPath(g)[n..] == g;
  }

  /** Every path the api route lists is one `getDocumentation` lists too,
      and the paths only `getDocumentation` lists are exactly those of the
      pdf files. */
  lemma {:induction false} RouteListsAllButPdfs(files: seq<string>, file: string)
    ensures DocumentPath(file) in ImagesOf(Documents(files, Images)) ==>
      DocumentPath(file) in ImagesOf(Documents(files, ImagesAndPdf))
    ensures (DocumentPath(file) in ImagesOf(Documents(files, ImagesAndPdf)) &&
             DocumentPath(file) !in ImagesOf(Documents(files, Images))) <==>
            file in files && IsPdfName(file)
  {
    DocumentPathListed(files, Images, file);
    DocumentPathListed(files, ImagesAndPdf, file);
    if IsPdfName(file) {
      PdfIsNotImage(file);
    }
  }

  /** Every path either listing produces is `/documentation/` and a file
      name, so the two lemmas above cover every path. */
  lemma ListedPathsAreDocumentPaths(files: seq<string>, accepted: Accepted, image: string)
    requires image in ImagesOf(Documents(files, accepted))
    ensures exists file :: file in files && image == DocumentPath(file)
  {
    var docs := Documents(files, accepted);
    var kept := FilterNames(files, accepted);
    var k :| 0 <= k < |docs| && ImagesOf(docs)[k] == image;
    assert kept[k] in kept;
  }

  /** The listing keeps the relative order of the directory: listing `a`
      then `b` gives `a`'s paths followed by `b`'s. */
  lemma {:induction false} DocumentsKeepOrder(a: seq<string>, b: seq<string>, accepted: Accepted)
    ensures ImagesOf(Documents(a + b, accepted)) ==
      ImagesOf(Documents(a, accepted)) + ImagesOf(Documents(b, accepted))
  {
    FilterNamesAppend(a, b, accepted);
    var ka, kb := FilterNames(a, accepted), FilterNames(b, accepted);
    ImagesOfNumbered(ka + kb);
    ImagesOfNumbered(ka);
    ImagesOfNumbered(kb);
    PathsAppend(ka, kb);
  }

  /** The `/documentation/` path of each name, in order. */
  function Paths(kept: seq<string>): seq<string> {
    seq(|kept|, k requires 0 <= k < |kept| => DocumentPath(kept[k]))
  }

  lemma ImagesOfNumbered(kept: seq<string>)
    ensures ImagesOf(NumberedDocuments(kept)) == Paths(kept)
  {
  }

  lemma PathsAppend(a: seq<string>, b: seq<string>)
    ensures Paths(a + b) == Paths(a) + Paths(b)
  {
    var l, r := Paths(a + b), Paths(a) + Paths(b);
    assert |l| == |r|;
    forall k | 0 <= k < |l| ensures l[k] == r[k] {
      if k >= |a| {
        assert (a + b)[k] == b[k - |a|];
      }
    }
  }
}
