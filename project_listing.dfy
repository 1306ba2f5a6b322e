/** The project photo listing: `GET` of src/app/api/projects/route.ts and
    `getProjects`/`getCategories` of src/app/data/projects.ts. The
    file system is replaced by its listing: the entries of the projects
    directory in `readdir` order, each with what `stat` says about it and,
    for a directory, the names `readdir` gives for it. */
module ProjectListing {
  import opened Media
  import opened FileNames

  datatype DirEntry = DirEntry(name: string, isDirectory: bool, files: seq<string>)

  /** The record `getProjects` returns. */
  datatype Project = Project(id: int, image: string, title: string, category: string, folder: string)

  /** A file the listing keeps, with the directory it was found in. */
  datatype Source = Source(category: string, file: string)

  /** The files of one entry that the listing keeps, in its own order:
      nothing for an entry that is not a directory. */
  function ImagesIn(e: DirEntry): seq<Source> {
    if e.isDirectory then SourcesIn(e.name, FilterNames(e.files, Images)) else []
  }

  function SourcesIn(category: string, files: seq<string>): seq<Source> {
    seq(|files|, k requires 0 <= k < |files| => Source(category, files[k]))
  }

  lemma ImagesInMembership(e: DirEntry, s: Source)
    ensures s in ImagesIn(e) <==>
      e.isDirectory && s.category == e.name && s.file in e.files && IsImageName(s.file)
  {
    if e.isDirectory {
      var kept := FilterNames(e.files, Images);
      if s.category == e.name && s.file in kept {
        var k :| 0 <= k < |kept| && kept[k] == s.file;
        assert SourcesIn(e.name, kept)[k] == s;
      }
    }
  }

  /** Every kept file of the listing, directory after directory. */
  function ListedImages(entries: seq<DirEntry>): seq<Source> {
    if entries == [] then []
    else ListedImages(entries[..|entries| - 1]) + ImagesIn(entries[|entries| - 1])
  }

  /** `/projects/${category}/${file}` */
  function ImagePath(category: string, file: string): string {
    "/projects/" + category + "/" + file
  }

  function ProjectFor(s: Source, id: int): Project {
    Project(id, ImagePath(s.category, s.file), Title(s.file), s.category, s.category)
  }

  /** The sources numbered consecutively from `first`. */
  function Numbered(sources: seq<Source>, first: int): seq<Project> {
    seq(|sources|, k requires 0 <= k < |sources| => ProjectFor(sources[k], first + k))
  }

  /** The reference listing: the kept files in listing order with ids
      1, 2, ... in that order. */
  function Projects(entries: seq<DirEntry>): seq<Project> {
    Numbered(ListedImages(entries), 1)
  }

  /** The record the api route returns: a project without its grouping. */
  function AsItem(p: Project): Item {
    Item(p.id, p.image, p.title)
  }

  function ItemsOf(ps: seq<Project>): seq<Item> {
    seq(|ps|, k requires 0 <= k < |ps| => AsItem(ps[k]))
  }

  /** The names of the directory entries, in listing order. */
  function Categories(entries: seq<DirEntry>): seq<string> {
    if entries == [] then []
    else
      var last := entries[|entries| - 1];
      Categories(entries[..|entries| - 1]) + (if last.isDirectory then [last.name] else [])
  }

  lemma {:induction false} ListedImagesStep(entries: seq<DirEntry>, i: nat)
    requires i < |entries|
    ensures ListedImages(entries[..i + 1]) == ListedImages(entries[..i]) + ImagesIn(entries[i])
  {
    assert entries[..i + 1][..i] == entries[..i];
  }

  lemma NumberedAppend(a: seq<Source>, b: seq<Source>, first: int)
    ensures Numbered(a + b, first) == Numbered(a, first) + Numbered(b, first + |a|)
  {
    var l, r := Numbered(a + b, first), Numbered(a, first) + Numbered(b, first + |a|);
    assert |l| == |r|;
    forall k | 0 <= k < |l| ensures l[k] == r[k] {
      if k >= |a| {
        assert (a + b)[k] == b[k - |a|];
      }
    }
  }

  /** A file is listed exactly when its name is an image name and it lies
      in a directory entry; other entries contribute nothing. */
  lemma {:induction false} ListedImagesMembership(entries: seq<DirEntry>, s: Source)
    ensures s in ListedImages(entries) <==>
      exists i :: 0 <= i < |entries| && entries[i].isDirectory && entries[i].name == s.category
        && s.file in entries[i].files && IsImageName(s.file)
  {
    if entries != [] {
      var init := entries[..|entries| - 1];
      ListedImagesMembership(init, s);
      ImagesInMembership(entries[|entries| - 1], s);
      if s in ListedImages(init) {
        var i :| 0 <= i < |init| && init[i].isDirectory && init[i].name == s.category
          && s.file in init[i].files && IsImageName(s.file);
        assert entries[i] == init[i];
      }
      forall i | 0 <= i < |entries| && entries[i].isDirectory && entries[i].name == s.category
        && s.file in entries[i].files && IsImageName(s.file)
        ensures s in ListedImages(entries)
      {
        if i < |init| {
          assert init[i] == entries[i];
        }
      }
    }
  }

  /** Each listed project lies in a category directory, and a project's
      folder is its category. */
  lemma {:induction false} CategoriesMembership(entries: seq<DirEntry>, name: string)
    ensures name in Categories(entries) <==>
      exists i :: 0 <= i < |entries| && entries[i].isDirectory && entries[i].name == name
  {
    if entries != [] {
      var init := entries[..|entries| - 1];
      CategoriesMembership(init, name);
      if name in Categories(init) {
        var i :| 0 <= i < |init| && init[i].isDirectory && init[i].name == name;
        assert entries[i] == init[i];
      }
      forall i | 0 <= i < |entries| && entries[i].isDirectory && entries[i].name == name
        ensures name in Categories(entries)
      {
        if i < |init| {
          assert init[i] == entries[i];
        }
      }
    }
  }

  /** Over the same listing, every project's folder is one of the
      categories `getCategories` returns. */
  lemma FoldersAreCategories(entries: seq<DirEntry>)
    ensures forall p :: p in Projects(entries) ==> p.folder in Categories(entries)
  {
    var ps := Projects(entries);
    forall p | p in ps ensures p.folder in Categories(entries) {
      var k :| 0 <= k < |ps| && ps[k] == p;
      ProjectFolderIsCategory(entries, k);
    }
  }

  lemma ProjectFolderIsCategory(entries: seq<DirEntry>, k: nat)
    requires k < |Projects(entries)|
    ensures Projects(entries)[k].folder in Categories(entries)
  {
    var listed := ListedImages(entries);
    assert Projects(entries)[k] == ProjectFor(listed[k], 1 + k);
    ListedCategoryIsCategory(entries, listed[k]);
  }

  lemma {:induction false} ListedCategoryIsCategory(entries: seq<DirEntry>, s: Source)
    requires s in ListedImages(entries)
    ensures s.category in Categories(entries)
  {
    var init, last := entries[..|entries| - 1], entries[|entries| - 1];
    if s in ListedImages(init) {
      ListedCategoryIsCategory(init, s);
    } else {
      ImagesInMembership(last, s);
    }
  }

  /** Ids are 1..N in output order, so no two projects share one, and a
      project's folder is its category. */
  lemma ProjectsShape(entries: seq<DirEntry>)
    ensures |Projects(entries)| == |ListedImages(entries)|
    ensures forall k :: 0 <= k < |Projects(entries)| ==> Projects(entries)[k].id == k + 1
    ensures forall p :: p in Projects(entries) ==> p.category == p.folder
  {
    var listed := ListedImages(entries);
    var ps := Projects(entries);
    assert |ps| == |listed|;
    forall k | 0 <= k < |ps| ensures ps[k].id == k + 1 && ps[k].category == ps[k].folder {
      assert ps[k] == ProjectFor(listed[k], 1 + k);
    }
  }

  /** The listing of `a` followed by `b` begins with the listing of `a`,
      and the ids of `b`'s files continue where `a`'s stopped: output
      order is directory order, then file order, with one shared counter. */
  lemma {:induction false} ProjectsAppend(a: seq<DirEntry>, b: seq<DirEntry>)
    ensures Projects(a + b) == Projects(a) + Numbered(ListedImages(b), |Projects(a)| + 1)
  {
    ListedImagesAppend(a, b);
    NumberedAppend(ListedImages(a), ListedImages(b), 1);
  }

  lemma {:induction false} ListedImagesAppend(a: seq<DirEntry>, b: seq<DirEntry>)
    ensures ListedImages(a + b) == ListedImages(a) + ListedImages(b)
  {
    if b != [] {
      var init := b[..|b| - 1];
      assert (a + b)[..|a + b| - 1] == a + init;
      ListedImagesAppend(a, init);
    } else {
      assert a + b == a;
    }
  }

  lemma {:induction false} NumberedSourcesSnoc(category: string, files: seq<string>, j: nat, first: int)
    requires j < |files|
    ensures Numbered(SourcesIn(category, files[..j + 1]), first) ==
      Numbered(SourcesIn(category, files[..j]), first) + [ProjectFor(Source(category, files[j]), first + j)]
  {
    assert SourcesIn(category, files[..j + 1]) == SourcesIn(category, files[..j]) + [Source(category, files[j])];
    NumberedAppend(SourcesIn(category, files[..j]), [Source(category, files[j])], first);
  }

  /** The inner `files.filter(...).map(...)` with its `idCounter++`: the
      kept files of one directory numbered from `first`. */
  method CategoryProjects(e: DirEntry, first: int) returns (categoryProjects: seq<Project>)
    requires e.isDirectory
    ensures categoryProjects == Numbered(ImagesIn(e), first)
  {
    var files := FilterNames(e.files, Images);
    var idCounter := first;
    categoryProjects := [];
    var j := 0;
    while j < |files|
      invariant 0 <= j <= |files|
      invariant idCounter == first + j
      invariant categoryProjects == Numbered(SourcesIn(e.name, files[..j]), first)
    {
      var file := files[j];
      NumberedSourcesSnoc(e.name, files, j, first);
      categoryProjects := categoryProjects + [Project(idCounter, "/projects/" + e.name + "/" + file,
        Title(file), e.name, e.name)];
      idCounter := idCounter + 1;
      j := j + 1;
    }
    assert files[..j] == files;
  }

  /** `getProjects`: the loop over the entries with one shared id counter.
      Ids are 1..N in output order, so no two projects share one. */
  method GetProjects(categories: seq<DirEntry>) returns (allProjects: seq<Project>)
    ensures allProjects == Projects(categories)
  {
    allProjects := [];
    var idCounter := 1;
    var i := 0;
    while i < |categories|
      invariant 0 <= i <= |categories|
      invariant allProjects == Projects(categories[..i])
      invariant idCounter == |allProjects| + 1
    {
      var category := categories[i];
      ListedImagesStep(categories, i);
      NumberedAppend(ListedImages(categories[..i]), ImagesIn(category), 1);
      if category.isDirectory {
        var categoryProjects := CategoryProjects(category, idCounter);
        idCounter := idCounter + |categoryProjects|;
        allProjects := allProjects + categoryProjects;
      }
      i := i + 1;
    }
    assert categories[..|categories|] == categories;
  }

  lemma ItemsOfAppend(a: seq<Project>, b: seq<Project>)
    ensures ItemsOf(a + b) == ItemsOf(a) + ItemsOf(b)
  {
    var l, r := ItemsOf(a + b), ItemsOf(a) + ItemsOf(b);
    forall k | 0 <= k < |l| ensures l[k] == r[k] {
      if k >= |a| {
        assert (a + b)[k] == b[k - |a|];
      }
    }
  }

  /** The api route's inner `files.filter(...).map(...)`: the same
      numbering, building `{id, image, title}` records. */
  method CategoryItems(e: DirEntry, first: int) returns (categoryProjects: seq<Item>)
    requires e.isDirectory
    ensures categoryProjects == ItemsOf(Numbered(ImagesIn(e), first))
  {
    var files := FilterNames(e.files, Images);
    var idCounter := first;
    categoryProjects := [];
    var j := 0;
    while j < |files|
      invariant 0 <= j <= |files|
      invariant idCounter == first + j
      invariant categoryProjects == ItemsOf(Numbered(SourcesIn(e.name, files[..j]), first))
    {
      var file := files[j];
      NumberedSourcesSnoc(e.name, files, j, first);
      ItemsOfAppend(Numbered(SourcesIn(e.name, files[..j]), first), Numbered([Source(e.name, file)], first + j));
      categoryProjects := categoryProjects + [Item(idCounter, "/projects/" + e.name + "/" + file, Title(file))];
      idCounter := idCounter + 1;
      j := j + 1;
    }
    assert files[..j] == files;
  }

  /** `GET` of the api route: the same loop over the entries with one
      shared counter, answering `{id, image, title}` records. */
  method ProjectsRoute(categories: seq<DirEntry>) returns (allProjects: seq<Item>)
    ensures allProjects == ItemsOf(Projects(categories))
  {
    allProjects := [];
    var idCounter := 1;
    var i := 0;
    while i < |categories|
      invariant 0 <= i <= |categories|
      invariant allProjects == ItemsOf(Projects(categories[..i]))
      invariant idCounter == |allProjects| + 1
    {
      var category := categories[i];
      ListedImagesStep(categories, i);
      NumberedAppend(ListedImages(categories[..i]), ImagesIn(category), 1);
      ItemsOfAppend(Projects(categories[..i]), Numbered(ImagesIn(category), idCounter));
      if category.isDirectory {
        var categoryProjects := CategoryItems(category, idCounter);
        idCounter := idCounter + |categoryProjects|;
        allProjects := allProjects + categoryProjects;
      } else {
        assert ItemsOf(Projects(categories[..i + 1])) == allProjects + [];
      }
      i := i + 1;
    }
    assert categories[..|categories|] == categories;
  }

  /** `getCategories`: the loop that pushes every directory entry's name. */
  method GetCategories(items: seq<DirEntry>) returns (categories: seq<string>)
    ensures categories == Categories(items)
    ensures forall c :: c in categories <==>
      exists i :: 0 <= i < |items| && items[i].isDirectory && items[i].name == c
  {
    categories := [];
    var i := 0;
    while i < |items|
      invariant 0 <= i <= |items|
      invariant categories == Categories(items[..i])
    {
      assert items[..i + 1][..i] == items[..i];
      if items[i].isDirectory {
        categories := categories + [items[i].name];
      }
      i := i + 1;
    }
    assert items[..|items|] == items;
    forall c ensures c in categories <==>
      exists i :: 0 <= i < |items| && items[i].isDirectory && items[i].name == c
    {
      CategoriesMembership(items, c);
    }
  }
}
