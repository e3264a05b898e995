/** The project catalogue: the record shapes of a portfolio project, the
    module-level `projects` array, and its four queries. `getAllProjects` sorts
    that array in place, newest first, with a stable sort; the other queries
    filter or search it as it currently stands. Dates are milliseconds since the
    Unix epoch, as `Date.getTime()` returns them. */
module Projects {
  import opened Wrappers

  datatype ProjectCategory = WebApplication | MobileApp | AiMl | OpenSource | Design | Other
  {
    /** The category's string value. */
    function Name(): string
    {
      match this
      case WebApplication => "Web Application"
      case MobileApp => "Mobile App"
      case AiMl => "AI/ML"
      case OpenSource => "Open Source"
      case Design => "Design"
      case Other => "Other"
    }
  }

  datatype ProjectStatus = Completed | InProgress | Archived

  datatype TechCategory = Frontend | Backend | DevOps | Ai | DesignTech | Database

  datatype Technology = Technology(name: string, icon: Option<string>, category: TechCategory)

  datatype Highlight = Highlight(title: string, description: string)

  datatype Metric = Metric(caption: string, value: string)  // `label` is a Dafny keyword

  datatype Project = Project(
    id: string,
    slug: string,
    title: string,
    description: string,
    longDescription: string,
    technologies: seq<Technology>,
    category: ProjectCategory,
    image: string,
    images: seq<string>,
    demoUrl: Option<string>,
    githubUrl: Option<string>,
    featured: bool,
    date: int,
    status: ProjectStatus,
    highlights: seq<Highlight>,
    metrics: Option<seq<Metric>>)

  // ---- Filtering ----

  /** `Array.prototype.filter`: the elements satisfying `keep`, in their order. */
  function Filter(s: seq<Project>, keep: Project -> bool): seq<Project>
  {
    if s == [] then []
    else if keep(s[0]) then [s[0]] + Filter(s[1..], keep)
    else Filter(s[1..], keep)
  }

  lemma {:induction false} FilterMembers(s: seq<Project>, keep: Project -> bool)
    ensures forall p :: p in Filter(s, keep) <==> p in s && keep(p)
  {
    if s != [] {
      FilterMembers(s[1..], keep);
      assert forall p :: p in s <==> p == s[0] || p in s[1..];
    }
  }

  lemma {:induction false} FilterAppend(a: seq<Project>, b: seq<Project>, keep: Project -> bool)
    ensures Filter(a + b, keep) == Filter(a, keep) + Filter(b, keep)
  {
    if a == [] {
      assert a + b == b;
    } else {
      assert (a + b)[0] == a[0] && (a + b)[1..] == a[1..] + b;
      FilterAppend(a[1..], b, keep);
    }
  }

  /** The filter keeps every copy of a kept element and no copy of any other. */
  lemma {:induction false} FilterCount(s: seq<Project>, keep: Project -> bool)
    ensures forall p :: multiset(Filter(s, keep))[p] == if keep(p) then multiset(s)[p] else 0
  {
    if s != [] {
      FilterCount(s[1..], keep);
      assert s == [s[0]] + s[1..];
      assert multiset(s) == multiset{s[0]} + multiset(s[1..]);
    }
  }

  /** Two filters give the same result in either order. */
  lemma {:induction false} FiltersCommute(s: seq<Project>, f: Project -> bool, g: Project -> bool)
    ensures Filter(Filter(s, f), g) == Filter(Filter(s, g), f)
  {
    if s != [] {
      FiltersCommute(s[1..], f, g);
      var x, fs, gs := s[0], Filter(s[1..], f), Filter(s[1..], g);
      assert ([x] + fs)[0] == x && ([x] + fs)[1..] == fs;
      assert ([x] + gs)[0] == x && ([x] + gs)[1..] == gs;
    }
  }

  predicate IsFeatured(p: Project)
  {
    p.featured
  }

  /** `projects.filter((p: Project) => p.featured)`. */
  function Featured(ps: seq<Project>): (r: seq<Project>)
    ensures forall p :: p in r <==> p in ps && p.featured
    ensures forall p :: multiset(r)[p] == if p.featured then multiset(ps)[p] else 0
  {
    FilterMembers(ps, IsFeatured);
    FilterCount(ps, IsFeatured);
    Filter(ps, IsFeatured)
  }

  /** The featured filter keeps array order: it works piece by piece. */
  lemma FeaturedAppend(a: seq<Project>, b: seq<Project>)
    ensures Featured(a + b) == Featured(a) + Featured(b)
  {
    FilterAppend(a, b, IsFeatured);
  }

  /** `projects.filter((p: Project) => p.category === category)`. */
  function InCategory(ps: seq<Project>, category: string): (r: seq<Project>)
    ensures forall p :: p in r <==> p in ps && p.category.Name() == category
    ensures forall p :: multiset(r)[p] == if p.category.Name() == category then multiset(ps)[p] else 0
  {
    FilterMembers(ps, (p: Project) => p.category.Name() == category);
    FilterCount(ps, (p: Project) => p.category.Name() == category);
    Filter(ps, (p: Project) => p.category.Name() == category)
  }

  /** The category filter keeps array order: it works piece by piece. */
  lemma InCategoryAppend(a: seq<Project>, b: seq<Project>, category: string)
    ensures InCategory(a + b, category) == InCategory(a, category) + InCategory(b, category)
  {
    FilterAppend(a, b, (p: Project) => p.category.Name() == category);
  }

  /** The projects dated exactly `d`, in their order. */
  function WithDate(s: seq<Project>, d: int): seq<Project>
  {
    Filter(s, (p: Project) => p.date == d)
  }

  // ---- The stable newest-first sort ----

  /** Non-increasing by date: what the comparator `b.date - a.date` orders by. */
  predicate NewerFirst(s: seq<Project>)
  {
    forall i, j :: 0 <= i < j < |s| ==> s[i].date >= s[j].date
  }

  /** Places `x` after every trailing element that is not older than it, scanning
      from the right: the inner step of a stable insertion sort. */
  function Insert(t: seq<Project>, x: Project): seq<Project>
  {
    if t == [] || t[|t| - 1].date >= x.date then t + [x]
    else Insert(t[..|t| - 1], x) + [t[|t| - 1]]
  }

  lemma {:induction false} InsertPermutes(t: seq<Project>, x: Project)
    ensures multiset(Insert(t, x)) == multiset(t) + multiset{x}
  {
    if !(t == [] || t[|t| - 1].date >= x.date) {
      InsertPermutes(t[..|t| - 1], x);
      assert t == t[..|t| - 1] + [t[|t| - 1]];
    }
  }

  /** The array order after `sort((a, b) => b.date.getTime() - a.date.getTime())`. */
  function SortByDate(s: seq<Project>): (r: seq<Project>)
    ensures |r| == |s|
  {
    if s == [] then []
    else
      InsertLength(SortByDate(s[..|s| - 1]), s[|s| - 1]);
      Insert(SortByDate(s[..|s| - 1]), s[|s| - 1])
  }

  lemma {:induction false} InsertLength(t: seq<Project>, x: Project)
    ensures |Insert(t, x)| == |t| + 1
  {
    if !(t == [] || t[|t| - 1].date >= x.date) {
      InsertLength(t[..|t| - 1], x);
    }
  }

  /** The sort is a permutation. */
  lemma {:induction false} SortByDatePermutes(s: seq<Project>)
    ensures multiset(SortByDate(s)) == multiset(s)
  {
    if s != [] {
      SortByDatePermutes(s[..|s| - 1]);
      InsertPermutes(SortByDate(s[..|s| - 1]), s[|s| - 1]);
      assert s == s[..|s| - 1] + [s[|s| - 1]];
    }
  }

  /** Where the right-to-left scan stops, `Insert` splices `x` in. */
  lemma {:induction false} InsertAt(t: seq<Project>, x: Project, j: int)
    requires 0 <= j <= |t|
    requires j == 0 || t[j - 1].date >= x.date
    requires forall m :: j <= m < |t| ==> t[m].date < x.date
    ensures Insert(t, x) == t[..j] + [x] + t[j..]
  {
    if j < |t| {
      var u, last := t[..|t| - 1], t[|t| - 1];
      assert last.date < x.date;
      assert Insert(t, x) == Insert(u, x) + [last];
      assert j == 0 || u[j - 1].date >= x.date;
      InsertAt(u, x, j);
      assert u[..j] == t[..j];
      assert u[j..] + [last] == t[j..];
    } else {
      assert t[..j] == t && t[j..] == [];
    }
  }

  predicate NotOlderThan(s: seq<Project>, d: int)
  {
    forall i :: 0 <= i < |s| ==> s[i].date >= d
  }

  lemma {:induction false} InsertNotOlder(t: seq<Project>, x: Project, d: int)
    requires NotOlderThan(t, d) && x.date >= d
    ensures NotOlderThan(Insert(t, x), d)
  {
    if !(t == [] || t[|t| - 1].date >= x.date) {
      InsertNotOlder(t[..|t| - 1], x, d);
    }
  }

  lemma {:induction false} InsertSorted(t: seq<Project>, x: Project)
    requires NewerFirst(t)
    ensures NewerFirst(Insert(t, x))
  {
    if !(t == [] || t[|t| - 1].date >= x.date) {
      var u := t[..|t| - 1];
      var last := t[|t| - 1];
      InsertSorted(u, x);
      assert NotOlderThan(u, last.date);
      InsertNotOlder(u, x, last.date);
    }
  }

  /** The sort leaves the projects newest first. */
  lemma {:induction false} SortByDateSorted(s: seq<Project>)
    ensures NewerFirst(SortByDate(s))
  {
    if s != [] {
      SortByDateSorted(s[..|s| - 1]);
      InsertSorted(SortByDate(s[..|s| - 1]), s[|s| - 1]);
    }
  }

  /** `keep` selects projects of at most one date. */
  ghost predicate SingleDate(keep: Project -> bool)
  {
    forall p, q :: keep(p) && keep(q) ==> p.date == q.date
  }

  lemma {:induction false} InsertStable(t: seq<Project>, x: Project, keep: Project -> bool)
    requires SingleDate(keep)
    ensures Filter(Insert(t, x), keep) == Filter(t, keep) + Filter([x], keep)
  {
    if t == [] || t[|t| - 1].date >= x.date {
      FilterAppend(t, [x], keep);
    } else {
      var u := t[..|t| - 1];
      var last := t[|t| - 1];
      InsertStable(u, x, keep);
      FilterAppend(Insert(u, x), [last], keep);
      FilterAppend(u, [last], keep);
      assert t == u + [last];
      assert !(keep(x) && keep(last));
    }
  }

  lemma {:induction false} SortByDateKeeps(s: seq<Project>, keep: Project -> bool)
    requires SingleDate(keep)
    ensures Filter(SortByDate(s), keep) == Filter(s, keep)
  {
    if s != [] {
      var u := s[..|s| - 1];
      SortByDateKeeps(u, keep);
      InsertStable(SortByDate(u), s[|s| - 1], keep);
      assert s == u + [s[|s| - 1]];
      FilterAppend(u, [s[|s| - 1]], keep);
    }
  }

  /** The sort is stable: projects of equal date keep their relative order. */
  lemma SortByDateStable(s: seq<Project>, d: int)
    ensures WithDate(SortByDate(s), d) == WithDate(s, d)
  {
    SortByDateKeeps(s, (p: Project) => p.date == d);
  }

  lemma WithDateHead(s: seq<Project>, d: int)
    requires s != []
    ensures WithDate(s, d) == (if s[0].date == d then [s[0]] else []) + WithDate(s[1..], d)
  {
  }

  /** Sorted, with every date's projects in the same order: two such sequences are
      equal. Hence any stable newest-first sort yields exactly `SortByDate`. */
  lemma {:induction false} StableSortUnique(r1: seq<Project>, r2: seq<Project>)
    requires NewerFirst(r1) && NewerFirst(r2)
    requires forall d :: WithDate(r1, d) == WithDate(r2, d)
    ensures r1 == r2
    decreases |r1| + |r2|
  {
    if r1 != [] || r2 != [] {
      if r1 == [] {
        WithDateHead(r2, r2[0].date);
        assert false;
      }
      if r2 == [] {
        WithDateHead(r1, r1[0].date);
        assert false;
      }
      var d1, d2 := r1[0].date, r2[0].date;
      WithDateHead(r1, d1);
      WithDateHead(r2, d2);
      FilterMembers(r1, (p: Project) => p.date == d2);
      FilterMembers(r2, (p: Project) => p.date == d1);
      assert r1[0] in WithDate(r2, d1);
      assert r2[0] in WithDate(r1, d2);
      assert d1 == d2;
      WithDateHead(r2, d1);
      assert r1[0] == WithDate(r1, d1)[0] == WithDate(r2, d1)[0] == r2[0];
      forall d
        ensures WithDate(r1[1..], d) == WithDate(r2[1..], d)
      {
        WithDateHead(r1, d);
        WithDateHead(r2, d);
        var h := if r1[0].date == d then [r1[0]] else [];
        assert WithDate(r1[1..], d) == WithDate(r1, d)[|h|..];
        assert WithDate(r2[1..], d) == WithDate(r2, d)[|h|..];
      }
      StableSortUnique(r1[1..], r2[1..]);
      assert r1 == [r1[0]] + r1[1..] && r2 == [r2[0]] + r2[1..];
    }
  }

  /** `SortByDate` is the only newest-first order that keeps each date's projects
      in their original order. */
  lemma SortByDateIsTheStableSort(s: seq<Project>, r: seq<Project>)
    requires NewerFirst(r)
    requires forall d :: WithDate(r, d) == WithDate(s, d)
    ensures r == SortByDate(s)
  {
    SortByDateSorted(s);
    forall d
      ensures WithDate(r, d) == WithDate(SortByDate(s), d)
    {
      SortByDateStable(s, d);
    }
    StableSortUnique(r, SortByDate(s));
  }

  /** Sorting an already sorted array leaves it unchanged, so calling
      `getAllProjects` again does not reorder anything. */
  lemma SortByDateIdempotent(s: seq<Project>)
    ensures SortByDate(SortByDate(s)) == SortByDate(s)
  {
    var r := SortByDate(s);
    SortByDateSorted(s);
    SortByDateSorted(r);
    forall d
      ensures WithDate(r, d) == WithDate(SortByDate(r), d)
    {
      SortByDateStable(r, d);
    }
    StableSortUnique(r, SortByDate(r));
  }

  lemma SortStep(s: seq<Project>, i: int)
    requires 0 <= i < |s|
    ensures SortByDate(s[..i + 1]) == Insert(SortByDate(s[..i]), s[i])
  {
    assert s[..i + 1][..i] == s[..i];
  }

  /** Shifts one place to the right every element of `a[..i]`, from the right,
      that is older than `x`, stopping at the first that is not; returns the gap
      left behind. */
  method ShiftOlder(a: array<Project>, i: int, x: Project) returns (j: int)
    requires 0 <= i < a.Length
    modifies a
    ensures 0 <= j <= i
    ensures j == 0 || old(a[j - 1]).date >= x.date
    ensures forall m :: j <= m < i ==> old(a[m]).date < x.date
    ensures forall m :: 0 <= m < j ==> a[m] == old(a[m])
    ensures forall m :: j < m <= i ==> a[m] == old(a[m - 1])
    ensures forall m :: i < m < a.Length ==> a[m] == old(a[m])
  {
    j := i;
    while j > 0 && a[j - 1].date < x.date
      invariant 0 <= j <= i
      invariant forall m :: 0 <= m < j ==> a[m] == old(a[m])
      invariant forall m :: j < m <= i ==> a[m] == old(a[m - 1])
      invariant forall m :: j <= m < i ==> old(a[m]).date < x.date
      invariant forall m :: i < m < a.Length ==> a[m] == old(a[m])
    {
      a[j] := a[j - 1];
      j := j - 1;
    }
  }

  /** One pass of the insertion sort: moves `a[i]` leftwards past every element
      older than it, into the sorted prefix `a[..i]`. */
  method InsertLast(a: array<Project>, i: int)
    requires 0 <= i < a.Length
    modifies a
    ensures a[..i + 1] == Insert(old(a[..i]), old(a[i]))
    ensures a[i + 1..] == old(a[i + 1..])
  {
    var x := a[i];
    ghost var t := a[..i];
    ghost var tail := a[i + 1..];
    var j := ShiftOlder(a, i, x);
    a[j] := x;
    InsertAt(t, x, j);
    ghost var r := t[..j] + [x] + t[j..];
    forall m | 0 <= m <= i
      ensures a[m] == r[m]
    {
      if m < j {
        assert r[m] == t[m];
      } else if j < m {
        assert r[m] == t[m - 1];
      }
    }
    assert a[..i + 1] == r == Insert(t, x);
    assert a[i + 1..] == tail by {
      forall m | i + 1 <= m < a.Length
        ensures a[m] == tail[m - i - 1]
      {
      }
    }
  }

  /** The stable insertion sort, in place. */
  method SortInPlace(a: array<Project>)
    modifies a
    ensures a[..] == SortByDate(old(a[..]))
  {
    ghost var s := a[..];
    var i := 0;
    while i < a.Length
      invariant 0 <= i <= a.Length
      invariant a[..i] == SortByDate(s[..i])
      invariant a[i..] == s[i..]
    {
      ghost var before := a[..];
      assert before[i] == before[i..][0] == s[i];
      assert before[i + 1..] == before[i..][1..] == s[i + 1..];
      InsertLast(a, i);
      SortStep(s, i);
      i := i + 1;
    }
    assert a[..] == a[..a.Length];
    assert s[..a.Length] == s;
  }

  // ---- Lookup ----

  /** `projects.find((p: Project) => p.slug === slug)`. */
  function FindBySlug(ps: seq<Project>, slug: string): (r: Option<Project>)
    ensures r.None? <==> forall i :: 0 <= i < |ps| ==> ps[i].slug != slug
    ensures r.Some? ==> exists i :: 0 <= i < |ps| && ps[i] == r.value && ps[i].slug == slug &&
                                    forall j :: 0 <= j < i ==> ps[j].slug != slug
  {
    if ps == [] then None
    else if ps[0].slug == slug then Some(ps[0])
    else
      var r := FindBySlug(ps[1..], slug);
      assert forall i :: 1 <= i < |ps| ==> ps[i] == ps[1..][i - 1];
      r
  }

  /** No category is called "all", so only the special case can answer it. */
  lemma {:induction false} NoCategoryCalledAll(ps: seq<Project>)
    ensures InCategory(ps, "all") == []
  {
    if ps != [] {
      NoCategoryCalledAll(ps[1..]);
      assert ps[0].category.Name() != "all";
    }
  }

  /** Featured projects: exactly the featured ones, newest first, each date's in
      array order. */
  lemma FeaturedSpec(ps: seq<Project>)
    ensures forall p :: p in SortByDate(Featured(ps)) <==> p in ps && p.featured
    ensures multiset(SortByDate(Featured(ps))) == multiset(Featured(ps))
    ensures NewerFirst(SortByDate(Featured(ps)))
    ensures forall p :: multiset(SortByDate(Featured(ps)))[p] == if p.featured then multiset(ps)[p] else 0
    ensures forall d :: WithDate(SortByDate(Featured(ps)), d) == Filter(WithDate(ps, d), IsFeatured)
  {
    forall d
      ensures WithDate(SortByDate(Featured(ps)), d) == Filter(WithDate(ps, d), IsFeatured)
    {
      SortByDateStable(Featured(ps), d);
      FiltersCommute(ps, IsFeatured, (p: Project) => p.date == d);
    }
    SortByDateSorted(Featured(ps));
    SortByDatePermutes(Featured(ps));
    forall p
      ensures p in SortByDate(Featured(ps)) <==> p in ps && p.featured
    {
      assert p in SortByDate(Featured(ps)) <==> p in multiset(SortByDate(Featured(ps)));
      assert p in Featured(ps) <==> p in multiset(Featured(ps));
    }
  }

  // ---- The module-level array and its queries ----

  /** The module `data/projects.ts`: its `projects` array, shared by every caller. */
  class Catalogue {
    const projects: array<Project>

    constructor ()
      ensures fresh(projects)
      ensures projects[..] == ShippedProjects()
    {
      projects := new Project[3] [HiringApp(), PizzaFalchi(), SocialflowAi()];
    }

    /** Sorts the shared array in place and returns that same array. */
    method GetAllProjects() returns (r: array<Project>)
      modifies projects
      ensures r == projects
      ensures projects[..] == SortByDate(old(projects[..]))
    {
      SortInPlace(projects);
      r := projects;
    }

    /** Filters into a new array and sorts that; the shared array is untouched. */
    method GetFeaturedProjects() returns (r: array<Project>)
      ensures fresh(r)
      ensures r[..] == SortByDate(Featured(projects[..]))
    {
      var f := Featured(projects[..]);
      r := new Project[|f|](i requires 0 <= i < |f| => f[i]);
      assert r[..] == f;
      SortInPlace(r);
    }

    method GetProjectBySlug(slug: string) returns (r: Option<Project>)
      ensures r == FindBySlug(projects[..], slug)
    {
      r := FindBySlug(projects[..], slug);
    }

    /** "all" is `getAllProjects()`, in-place sort included; any other string
        filters the array as it currently stands, without sorting. */
    method GetProjectsByCategory(category: string) returns (r: array<Project>)
      modifies projects
      ensures category == "all" ==> r == projects && projects[..] == SortByDate(old(projects[..]))
      ensures category != "all" ==>
        fresh(r) && r[..] == InCategory(old(projects[..]), category) && projects[..] == old(projects[..])
    {
      if category == "all" {
        r := GetAllProjects();
      } else {
        var f := InCategory(projects[..], category);
        r := new Project[|f|](i requires 0 <= i < |f| => f[i]);
        assert r[..] == f;
      }
    }
  }

  // ---- The shipped data ----

  // Long strings are written as concatenations of short literals: the same
  // values, in a form the verifier handles cheaply.

  /** The `hiring-app` entry, dated 2024-10-15. */
  function HiringApp(): Project
  {
    Project(
      id := "1",
      slug := "hiring-app",
      title := ("Hi-Ring " + "- " + "Recruitment " + "Platform"),
      description := ("Full-featured " + "recruitment " + "platform " + "with " + "CV " + "parsing, " + "candidate " + "management, " + "and " + "automated " + "email " + "campaigns."),
      longDescription := ("A " + "comprehensive " + "recruitment " + "management " + "system " + "designed " + "to " + "streamline " + "the " + "hiring " + "process " + "for " + "modern " + "companies.\n    " + "Features " + "intelligent " + "CV " + "parsing, " + "candidate " + "tracking, " + "interview " + "scheduling, " + "and " + "automated " + "email " + "campaigns.\n    " + "Built " + "with " + "a " + "focus " + "on " + "performance, " + "security, " + "and " + "user " + "experience."),
      technologies := [
        Technology(("Next.js " + "15"), None, Frontend),
        Technology("React 19", None, Frontend),
        Technology("TypeScript", None, Frontend),
        Technology("MongoDB", None, Database),
        Technology("NextAuth", None, Backend),
        Technology("SendGrid", None, Backend),
        Technology(("PDF " + "Parse"), None, Backend),
        Technology(("Framer " + "Motion"), None, Frontend),
        Technology("Radix UI", None, Frontend),
        Technology("TailwindCSS", None, Frontend),
        Technology("Vitest", None, DevOps)
      ],
      category := WebApplication,
      image := "/images/projects/hiring-app.svg",
      images := ["/images/projects/hiring-app.svg", "/images/projects/hiring-app.svg", "/images/projects/hiring-app.svg"],
      demoUrl := Some(""),
      githubUrl := Some(""),
      featured := true,
      date := 1728950400000,
      status := Completed,
      highlights := [
        Highlight(("CV " + "Parsing " + "& " + "Analysis"),
                  ("Automatically " + "extract " + "and " + "analyze " + "candidate " + "information " + "from " + "PDF " + "and " + "DOCX " + "resumes")),
        Highlight(("Candidate " + "Management"),
                  ("Track " + "candidates " + "through " + "the " + "hiring " + "pipeline " + "with " + "custom " + "statuses " + "and " + "notes")),
        Highlight(("Email " + "Campaigns"),
                  ("Send " + "bulk " + "emails " + "to " + "candidates " + "with " + "templates " + "and " + "scheduling")),
        Highlight(("Authentication " + "& " + "Authorization"),
                  ("Secure " + "login " + "system " + "with " + "role-based " + "access " + "control"))
      ],
      metrics := Some([
        Metric(("Test " + "Coverage"), "85%"),
        Metric(("Performance " + "Score"), "95+"),
        Metric(("Type " + "Safety"), "100%")
      ]))
  }

  /** The `pizza-falchi` entry, dated 2024-10-10. */
  function PizzaFalchi(): Project
  {
    Project(
      id := "2",
      slug := "pizza-falchi",
      title := ("Pizza " + "Falchi " + "- " + "Restaurant " + "Platform"),
      description := ("Modern " + "restaurant " + "ordering " + "platform " + "with " + "Stripe " + "payments, " + "SMS " + "notifications, " + "and " + "real-time " + "order " + "tracking."),
      longDescription := ("A " + "full-stack " + "restaurant " + "and " + "food " + "ordering " + "platform " + "with " + "integrated " + "payment " + "processing " + "and " + "customer " + "notifications.\n    " + "Features " + "menu " + "management, " + "order " + "processing, " + "Stripe " + "payment " + "integration, " + "and " + "Twilio " + "SMS " + "notifications.\n    " + "Designed " + "for " + "scalability " + "and " + "optimal " + "user " + "experience " + "across " + "all " + "devices."),
      technologies := [
        Technology(("Next.js " + "15"), None, Frontend),
        Technology("React 19", None, Frontend),
        Technology("TypeScript", None, Frontend),
        Technology("Mongoose", None, Database),
        Technology("MongoDB", None, Database),
        Technology("Stripe", None, Backend),
        Technology("Twilio", None, Backend),
        Technology("NextAuth", None, Backend),
        Technology("SWR", None, Frontend),
        Technology("TailwindCSS", None, Frontend),
        Technology("Vitest", None, DevOps)
      ],
      category := WebApplication,
      image := "/images/projects/pizza-falchi.svg",
      images := ["/images/projects/pizza-falchi.svg", "/images/projects/pizza-falchi.svg", "/images/projects/pizza-falchi.svg"],
      demoUrl := Some(""),
      githubUrl := Some(""),
      featured := true,
      date := 1728518400000,
      status := Completed,
      highlights := [
        Highlight(("Stripe " + "Payment " + "Integration"),
                  ("Secure " + "payment " + "processing " + "with " + "Stripe " + "for " + "seamless " + "transactions")),
        Highlight(("SMS " + "Notifications"),
                  ("Real-time " + "order " + "updates " + "via " + "Twilio " + "SMS")),
        Highlight(("Menu " + "Management"),
                  ("Dynamic " + "menu " + "system " + "with " + "categories, " + "pricing, " + "and " + "availability")),
        Highlight(("Order " + "Tracking"),
                  ("Real-time " + "order " + "status " + "updates " + "for " + "customers"))
      ],
      metrics := Some([
        Metric(("Payment " + "Success " + "Rate"), "99.8%"),
        Metric(("Page " + "Load " + "Time"), "<2s"),
        Metric(("Mobile " + "Users"), "65%")
      ]))
  }

  /** The `socialflow-ai` entry, dated 2024-10-20. */
  function SocialflowAi(): Project
  {
    Project(
      id := "3",
      slug := "socialflow-ai",
      title := ("SocialFlow " + "AI " + "- " + "Content " + "Scheduler"),
      description := ("AI-powered " + "social " + "media " + "content " + "scheduler " + "with " + "Claude " + "AI " + "integration, " + "automated " + "posting, " + "and " + "video " + "processing."),
      longDescription := ("An " + "intelligent " + "social " + "media " + "management " + "platform " + "leveraging " + "AI " + "to " + "generate, " + "schedule, " + "and " + "post " + "content " + "across " + "platforms.\n    " + "Features " + "AI " + "content " + "generation " + "using " + "Claude " + "and " + "OpenAI, " + "automated " + "scheduling " + "with " + "BullMQ " + "job " + "queues, " + "Twitter " + "API " + "integration,\n    " + "and " + "FFmpeg " + "video " + "processing. " + "Built " + "for " + "content " + "creators " + "and " + "marketing " + "teams."),
      technologies := [
        Technology(("Next.js " + "15"), None, Frontend),
        Technology("React 19", None, Frontend),
        Technology("TypeScript", None, Frontend),
        Technology(("Claude " + "AI"), None, Ai),
        Technology("OpenAI", None, Ai),
        Technology("MongoDB", None, Database),
        Technology("Mongoose", None, Database),
        Technology("Redis", None, Database),
        Technology("BullMQ", None, Backend),
        Technology(("Twitter " + "API"), None, Backend),
        Technology("FFmpeg", None, Backend),
        Technology("NextAuth", None, Backend),
        Technology(("React " + "Hook " + "Form"), None, Frontend),
        Technology("DnD Kit", None, Frontend),
        Technology("TailwindCSS", None, Frontend),
        Technology("Playwright", None, DevOps)
      ],
      category := AiMl,
      image := "/images/projects/socialflow-ai.svg",
      images := ["/images/projects/socialflow-ai.svg", "/images/projects/socialflow-ai.svg", "/images/projects/socialflow-ai.svg"],
      demoUrl := Some(""),
      githubUrl := Some(""),
      featured := true,
      date := 1729382400000,
      status := InProgress,
      highlights := [
        Highlight(("AI " + "Content " + "Generation"),
                  ("Generate " + "engaging " + "social " + "media " + "posts " + "using " + "Claude " + "AI " + "and " + "OpenAI")),
        Highlight(("Automated " + "Scheduling"),
                  ("Schedule " + "posts " + "with " + "BullMQ " + "job " + "queues " + "and " + "Redis " + "for " + "reliable " + "delivery")),
        Highlight(("Video " + "Processing"),
                  ("Process " + "and " + "optimize " + "videos " + "with " + "FFmpeg " + "for " + "social " + "media " + "platforms")),
        Highlight(("Multi-Platform " + "Support"),
                  ("Post " + "to " + "Twitter " + "with " + "planned " + "support " + "for " + "more " + "platforms")),
        Highlight(("Drag " + "& " + "Drop " + "Calendar"),
                  ("Intuitive " + "calendar " + "interface " + "for " + "scheduling " + "and " + "rearranging " + "posts"))
      ],
      metrics := Some([
        Metric(("AI " + "Response " + "Time"), "<3s"),
        Metric(("Scheduling " + "Accuracy"), "99.9%"),
        Metric(("Video " + "Processing"), ("10x " + "faster"))
      ]))
  }

  /** The module-level `projects` array as shipped, in declaration order. */
  function ShippedProjects(): seq<Project>
  {
    [HiringApp(), PizzaFalchi(), SocialflowAi()]
  }

  /** The three shipped slugs are pairwise distinct, so a slug names one project. */
  lemma ShippedSlugsDistinct()
    ensures HiringApp().slug != PizzaFalchi().slug && HiringApp().slug != SocialflowAi().slug
    ensures PizzaFalchi().slug != SocialflowAi().slug
  {
  }

  /** Looking up a shipped slug finds its entry. */
  lemma ShippedLookup()
    ensures FindBySlug(ShippedProjects(), "pizza-falchi") == Some(PizzaFalchi())
  {
  }

  /** Only socialflow-ai is in "AI/ML". */
  lemma ShippedAiCategory()
    ensures InCategory(ShippedProjects(), "AI/ML") == [SocialflowAi()]
  {
    LastOfThreeInCategory(HiringApp(), PizzaFalchi(), SocialflowAi(), "AI/ML");
  }

  /** Of three projects, only the last is filed under `category`. */
  lemma LastOfThreeInCategory(a: Project, b: Project, c: Project, category: string)
    requires a.category.Name() != category && b.category.Name() != category
    requires c.category.Name() == category
    ensures InCategory([a, b, c], category) == [c]
  {
    var keep := (p: Project) => p.category.Name() == category;
    assert [a, b, c][1..] == [b, c] && [b, c][1..] == [c] && [c][1..] == [];
    assert Filter([c], keep) == [c];
    assert Filter([b, c], keep) == [c];
    assert Filter([a, b, c], keep) == [c];
  }

  lemma {:induction false} FilterKeepsAll(s: seq<Project>, keep: Project -> bool)
    requires forall i :: 0 <= i < |s| ==> keep(s[i])
    ensures Filter(s, keep) == s
  {
    if s != [] {
      FilterKeepsAll(s[1..], keep);
    }
  }

  /** Three projects, the last newest and the first newer than the second, sort
      to last, first, second. */
  lemma SortThree(a: Project, b: Project, c: Project)
    requires b.date < a.date < c.date
    ensures SortByDate([a, b, c]) == [c, a, b]
  {
    var s := [a, b, c];
    SortStep(s, 0);
    SortStep(s, 1);
    SortStep(s, 2);
    assert s[..0] == [] && s[..1] == [a] && s[..2] == [a, b] && s[..3] == s;
    assert SortByDate([a]) == [a];
    assert SortByDate([a, b]) == [a, b];
    InsertNewest(a, b, c);
  }

  /** A project newer than both goes in front of them. */
  lemma InsertNewest(a: Project, b: Project, c: Project)
    requires b.date < a.date < c.date
    ensures Insert([a, b], c) == [c, a, b]
  {
    assert [a, b][..1] == [a] && [a][..0] == [];
    assert Insert([], c) == [c];
    assert Insert([a], c) == Insert([], c) + [a];
    assert Insert([a, b], c) == Insert([a], c) + [b];
  }

  /** Every shipped project is featured, and newest first they are socialflow-ai,
      hiring-app, pizza-falchi. */
  lemma ShippedFeaturedOrder()
    ensures SortByDate(Featured(ShippedProjects())) == [SocialflowAi(), HiringApp(), PizzaFalchi()]
    ensures SortByDate(ShippedProjects()) == [SocialflowAi(), HiringApp(), PizzaFalchi()]
  {
    FilterKeepsAll(ShippedProjects(), IsFeatured);
    SortThree(HiringApp(), PizzaFalchi(), SocialflowAi());
  }
}
