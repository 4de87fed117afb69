/**
 * The shared navigation bar (js/universalNavbar.js): the relative path from
 * the current page back to the site root, the links built on it, and the
 * idempotent injection of the bar and its stylesheet into a page.
 */
module NavbarPaths {
  import opened Wrappers
  import opened JsStrings

  const CssId := "universal-navbar-css"
  const ContainerId := "universal-navbar-container"

  /** The one-level-up step that base paths are made of. */
  const Up := "../"

  /** The three cases detectBasePath treats as the site root. */
  predicate IsRootPath(path: string) {
    path == "/" || EndsWith(path, "index.html") || '/' !in path
  }

  /** The non-empty "/"-separated segments of a path. */
  function Segments(path: string): seq<string> {
    NonEmpty(Split(path, '/'))
  }

  /** A base path that climbs k >= 1 directories. */
  predicate IsClimb(r: string) {
    |r| >= 3 && |r| % 3 == 0 && r == Repeat(Up, |r| / 3)
  }

  lemma ClimbIsNotHere(k: nat)
    requires k >= 1
    ensures Repeat(Up, k) != "./"
  {
    assert |Repeat(Up, k)| == 3 * k;
  }

  /**
   * detectBasePath: "./" for the root cases; otherwise "../" once for every
   * directory above the file (the segments but the last), and at least once.
   */
  function DetectBasePath(path: string): (r: string)
    ensures r != []
    ensures r == "./" <==> IsRootPath(path)
    ensures !IsRootPath(path) ==> IsClimb(r)
  {
    if IsRootPath(path) then "./"
    else
      var depth := |Segments(path)| - 1;
      var k := if depth > 1 then depth else 1;
      ClimbIsNotHere(k);
      assert |Repeat(Up, k)| / 3 == k;
      Repeat(Up, k)
  }

  /** Outside the root cases, the number of "../" steps is the number of segments less one, but at least one. */
  lemma ClimbCountsDirectories(path: string)
    requires !IsRootPath(path)
    ensures |DetectBasePath(path)| / 3 == (if |Segments(path)| - 1 > 1 then |Segments(path)| - 1 else 1)
  {
  }

  /** The site root and a bare file name are root paths. */
  lemma RootExamples()
    ensures DetectBasePath("/") == "./"
    ensures DetectBasePath("index.html") == "./"
    ensures DetectBasePath("about") == "./"
  {
  }

  /** Split on a string that starts with a known character. */
  lemma SplitCons(c: char, t: string, sep: char)
    ensures Split([c] + t, sep) ==
      if c == sep then [[]] + Split(t, sep) else [[c] + Split(t, sep)[0]] + Split(t, sep)[1..]
  {
    assert ([c] + t)[1..] == t;
  }

  /** A folder's own page ("/a/") climbs one level. */
  lemma FolderPageClimbsOnce()
    ensures DetectBasePath("/a/") == "../"
  {
    SplitFolderPath();
    FolderPageSegments();
    assert |Segments("/a/")| == 1;
    assert !IsRootPath("/a/") by { assert "/a/"[0] == '/'; }
    assert Repeat(Up, 1) == Up + Repeat(Up, 0);
  }

  lemma SplitFolderPath()
    ensures Split("/a/", '/') == ["", "a", ""]
  {
    SplitCons('/', [], '/');
    assert Split("/", '/') == ["", ""] by { assert "/" == ['/'] + []; }
    SplitCons('a', "/", '/');
    assert Split("a/", '/') == ["a", ""] by {
      assert "a/" == ['a'] + "/";
      assert ['a'] + Split("/", '/')[0] == "a" && Split("/", '/')[1..] == [""];
    }
    SplitCons('/', "a/", '/');
    assert "/a/" == ['/'] + "a/";
  }

  lemma FolderPageSegments()
    ensures NonEmpty(["", "a", ""]) == ["a"]
  {
    assert NonEmpty([""]) == [];
    assert ["a", ""][1..] == [""];
    assert NonEmpty(["a", ""]) == ["a"];
    assert ["", "a", ""][1..] == ["a", ""];
  }

  lemma SplitNestedPath()
    ensures Split("/a/b/c", '/') == ["", "a", "b", "c"]
  {
    SplitCons('c', [], '/');
    assert Split("c", '/') == ["c"] by { assert "c" == ['c'] + []; }
    SplitCons('/', "c", '/');
    assert Split("/c", '/') == ["", "c"] by { assert "/c" == ['/'] + "c"; }
    SplitCons('b', "/c", '/');
    assert Split("b/c", '/') == ["b", "c"] by {
      assert "b/c" == ['b'] + "/c";
      assert ['b'] + Split("/c", '/')[0] == "b" && Split("/c", '/')[1..] == ["c"];
    }
    SplitCons('/', "b/c", '/');
    assert Split("/b/c", '/') == ["", "b", "c"] by { assert "/b/c" == ['/'] + "b/c"; }
    SplitCons('a', "/b/c", '/');
    assert Split("a/b/c", '/') == ["a", "b", "c"] by {
      assert "a/b/c" == ['a'] + "/b/c";
      assert ['a'] + Split("/b/c", '/')[0] == "a" && Split("/b/c", '/')[1..] == ["b", "c"];
    }
    SplitCons('/', "a/b/c", '/');
    assert "/a/b/c" == ['/'] + "a/b/c";
  }

  /** A page two folders down climbs two levels. */
  lemma NestedPageClimbsTwice()
    ensures DetectBasePath("/a/b/c") == "../../"
  {
    var path := "/a/b/c";
    NestedPathSegments();
    assert !IsRootPath(path) by { assert path[0] == '/'; }
    assert |Segments(path)| - 1 == 2;
    ClimbTwice();
  }

  lemma ClimbTwice()
    ensures Repeat(Up, 2) == "../../"
  {
    assert Repeat(Up, 2) == Up + (Up + Repeat(Up, 0));
  }

  lemma NestedPathSegments()
    ensures Segments("/a/b/c") == ["a", "b", "c"]
  {
    SplitNestedPath();
    assert ["b", "c"][1..] == ["c"];
    assert NonEmpty(["c"]) == ["c"];
    assert NonEmpty(["b", "c"]) == ["b", "c"];
    assert ["a", "b", "c"][1..] == ["b", "c"];
    assert NonEmpty(["a", "b", "c"]) == ["a", "b", "c"];
    assert ["", "a", "b", "c"][1..] == ["a", "b", "c"];
  }

  /** An index page in a subfolder also counts as the root, so its home link points at that subfolder's own index page. */
  lemma SubfolderIndexTreatedAsRoot()
    ensures DetectBasePath("/todo-app/index.html") == "./"
  {
    var p := "/todo-app/index.html";
    assert p[|p| - |"index.html"|..] == "index.html";
  }

  /** A non-empty custom base path wins; a missing or empty one falls back to detection. */
  function ChooseBasePath(custom: Option<string>, path: string): (r: string)
    ensures custom.Some? && custom.value != "" ==> r == custom.value
    ensures custom.None? || custom.value == "" ==> r == DetectBasePath(path)
    ensures r != []
  {
    if custom.Some? && custom.value != "" then custom.value else DetectBasePath(path)
  }

  /** The brand and home link target: both branches of the source give the base path followed by "index.html". */
  function HomeHref(basePath: string): (r: string)
    ensures r == basePath + "index.html"
  {
    if basePath != "./" then basePath + "index.html" else "./index.html"
  }

  function StylesheetHref(basePath: string): string {
    basePath + "css/navbar.css"
  }

  function ProjectsDataUrl(basePath: string): string {
    basePath + "data/projects.json"
  }

  /** One entry of the projects data: its name and its path relative to the site root. */
  datatype Project = Project(name: string, url: string)

  /** One dropdown entry. */
  datatype Link = Link(href: string, text: string)

  const ErrorLink := Link("#", "Error loading projects")

  function ProjectLink(basePath: string, p: Project): (l: Link)
    ensures l.href == basePath + p.url && l.text == p.name
  {
    Link(basePath + p.url, p.name)
  }

  /** The dropdown loadProjects builds: one link per project, in order, each under the base path. */
  function ProjectLinks(basePath: string, projects: seq<Project>): (links: seq<Link>)
    ensures |links| == |projects|
    ensures forall k :: 0 <= k < |projects| ==> links[k] == ProjectLink(basePath, projects[k])
  {
    if projects == [] then [] else [ProjectLink(basePath, projects[0])] + ProjectLinks(basePath, projects[1..])
  }

  /**
   * The parts of a page the navbar script touches: the ids present, the
   * stylesheet links in the head, how many navbar containers the body holds,
   * and the links inside the bar.
   */
  datatype NavbarDoc = NavbarDoc(
    ids: set<string>,
    stylesheets: seq<string>,
    containers: nat,
    brandHref: string,
    homeHref: string,
    dropdown: seq<Link>)

  /** injectNavbarCSS: adds the stylesheet link unless an element with its id is already there. */
  function InjectNavbarCss(d: NavbarDoc, basePath: string): (e: NavbarDoc)
    ensures CssId in e.ids
    ensures CssId in d.ids ==> e == d
    ensures CssId !in d.ids ==>
      e == d.(ids := d.ids + {CssId}, stylesheets := d.stylesheets + [StylesheetHref(basePath)])
  {
    if CssId in d.ids then d
    else d.(ids := d.ids + {CssId}, stylesheets := d.stylesheets + [StylesheetHref(basePath)])
  }

  /** The navbar markup as inserted, before the links are set: brand and home point at "#", the dropdown is empty. */
  function InsertNavbar(d: NavbarDoc): (e: NavbarDoc)
    ensures ContainerId in e.ids
    ensures e.containers == (if ContainerId in d.ids then d.containers else d.containers + 1)
    ensures e.stylesheets == d.stylesheets
    ensures e.ids == d.ids + {ContainerId}
    ensures e.brandHref == "#" && e.homeHref == "#" && e.dropdown == []
  {
    var d1 := if ContainerId in d.ids then d else d.(ids := d.ids + {ContainerId}, containers := d.containers + 1);
    d1.(brandHref := "#", homeHref := "#", dropdown := [])
  }

  /** loadProjects: the project links when the data could be fetched and read, otherwise the single error entry. */
  function LoadProjects(d: NavbarDoc, basePath: string, fetched: Option<seq<Project>>): (e: NavbarDoc)
    ensures fetched.Some? ==> e.dropdown == ProjectLinks(basePath, fetched.value)
    ensures fetched.None? ==> e.dropdown == [ErrorLink]
    ensures e.(dropdown := d.dropdown) == d
  {
    if fetched.Some? then d.(dropdown := ProjectLinks(basePath, fetched.value))
    else d.(dropdown := [ErrorLink])
  }

  /** loadUniversalNavbar, without the dropdown toggling. */
  function LoadNavbar(d: NavbarDoc, custom: Option<string>, path: string, fetched: Option<seq<Project>>): (e: NavbarDoc)
    ensures var basePath := ChooseBasePath(custom, path);
      && e.brandHref == basePath + "index.html" && e.homeHref == basePath + "index.html"
      && CssId in e.ids && ContainerId in e.ids
      && (fetched.Some? ==> e.dropdown == ProjectLinks(basePath, fetched.value))
      && (fetched.None? ==> e.dropdown == [ErrorLink])
  {
    var basePath := ChooseBasePath(custom, path);
    var d1 := InsertNavbar(InjectNavbarCss(d, basePath));
    var href := HomeHref(basePath);
    LoadProjects(d1.(brandHref := href, homeHref := href), basePath, fetched)
  }

  /** A second injection adds nothing, whatever base path it is given. */
  lemma InjectNavbarCssIdempotent(d: NavbarDoc, b1: string, b2: string)
    ensures InjectNavbarCss(InjectNavbarCss(d, b1), b2) == InjectNavbarCss(d, b1)
  {
  }

  /** On a page without the bar, loading it adds exactly one stylesheet link and one container. */
  lemma LoadOnFreshPage(d: NavbarDoc, custom: Option<string>, path: string, fetched: Option<seq<Project>>)
    requires CssId !in d.ids && ContainerId !in d.ids
    ensures LoadNavbar(d, custom, path, fetched).stylesheets == d.stylesheets + [StylesheetHref(ChooseBasePath(custom, path))]
    ensures LoadNavbar(d, custom, path, fetched).containers == d.containers + 1
  {
  }

  /** Loading the bar twice leaves the page as loading it once. */
  lemma LoadNavbarIdempotent(d: NavbarDoc, custom: Option<string>, path: string, fetched: Option<seq<Project>>)
    ensures LoadNavbar(LoadNavbar(d, custom, path, fetched), custom, path, fetched) == LoadNavbar(d, custom, path, fetched)
  {
  }
}

/** The page's document, changed in place by the navbar script. */
module UniversalNavbar {
  import opened Wrappers
  import opened NavbarPaths

  class NavbarPage {
    var ids: set<string>
    var stylesheets: seq<string>
    var containers: nat
    var brandHref: string
    var homeHref: string
    var dropdown: seq<Link>

    function Doc(): NavbarDoc
      reads this
    {
      NavbarDoc(ids, stylesheets, containers, brandHref, homeHref, dropdown)
    }

    constructor (initialIds: set<string>, initialStylesheets: seq<string>)
      ensures Doc() == NavbarDoc(initialIds, initialStylesheets, 0, "#", "#", [])
    {
      ids := initialIds;
      stylesheets := initialStylesheets;
      containers := 0;
      brandHref, homeHref := "#", "#";
      dropdown := [];
    }

    method InjectNavbarCss(basePath: string)
      modifies this
      ensures Doc() == NavbarPaths.InjectNavbarCss(old(Doc()), basePath)
    {
      if CssId in ids {
        return;
      }
      ids := ids + {CssId};
      stylesheets := stylesheets + [StylesheetHref(basePath)];
    }

    method LoadProjects(basePath: string, fetched: Option<seq<Project>>)
      modifies this
      ensures Doc() == NavbarPaths.LoadProjects(old(Doc()), basePath, fetched)
    {
      if fetched.None? {
        dropdown := [ErrorLink];
        return;
      }
      var projects := fetched.value;
      dropdown := [];
      var k := 0;
      while k < |projects|
        invariant 0 <= k <= |projects|
        invariant dropdown == ProjectLinks(basePath, projects[..k])
        invariant Doc().(dropdown := old(dropdown)) == old(Doc())
      {
        assert projects[..k + 1] == projects[..k] + [projects[k]];
        LinksAppend(basePath, projects[..k], projects[k]);
        dropdown := dropdown + [ProjectLink(basePath, projects[k])];
        k := k + 1;
      }
      assert projects[..k] == projects;
    }

    method LoadUniversalNavbar(custom: Option<string>, path: string, fetched: Option<seq<Project>>)
      modifies this
      ensures Doc() == LoadNavbar(old(Doc()), custom, path, fetched)
    {
      var basePath := ChooseBasePath(custom, path);
      InjectNavbarCss(basePath);
      if ContainerId !in ids {
        ids := ids + {ContainerId};
        containers := containers + 1;
      }
      brandHref, homeHref, dropdown := "#", "#", [];
      if basePath != "./" {
        brandHref := basePath + "index.html";
        homeHref := basePath + "index.html";
      } else {
        brandHref := "./index.html";
        homeHref := "./index.html";
      }
      LoadProjects(basePath, fetched);
    }
  }

  /** Building the links one project at a time gives the same list. */
  lemma LinksAppend(basePath: string, ps: seq<Project>, p: Project)
    ensures ProjectLinks(basePath, ps + [p]) == ProjectLinks(basePath, ps) + [ProjectLink(basePath, p)]
  {
  }
}
