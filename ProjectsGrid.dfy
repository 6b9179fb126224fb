/** The list logic of the projects section (app/components/ProjectsGrid.tsx): the
    featured project, the mobile and web lists sorted by year, card numbering,
    per-character title splitting, the project-type label, the technology slice and
    the short-description fallback. The GSAP timelines are not part of this model. */
module ProjectsGrid {
  import opened Wrappers
  import opened ProjectData
  import opened Translations

  // ---------------------------------------------------------------------------
  // Featured project and the two sorted lists

  /** `projects[0]`, which is undefined for an empty list. */
  function Featured(ps: seq<Project>): (r: Option<Project>)
    ensures r.Some? <==> |ps| > 0
    ensures r.Some? ==> r.value == ps[0]
  {
    if |ps| == 0 then None else Some(ps[0])
  }

  /** `projects.slice(1)`: everything after the featured project. */
  function Others(ps: seq<Project>): (r: seq<Project>)
    ensures |ps| > 0 ==> ps == [ps[0]] + r
    ensures |ps| == 0 ==> r == []
  {
    if |ps| == 0 then [] else ps[1..]
  }

  /** `filter(p => p.type === kind)`, order kept. */
  function OfType(ps: seq<Project>, kind: ProjectType): seq<Project> {
    if ps == [] then []
    else (if ps[0].kind == kind then [ps[0]] else []) + OfType(ps[1..], kind)
  }

  /** The filter keeps exactly the projects of the requested type. */
  lemma {:induction false} OfTypeMembers(ps: seq<Project>, kind: ProjectType)
    ensures forall p :: p in OfType(ps, kind) <==> p in ps && p.kind == kind
  {
    if ps != [] {
      OfTypeMembers(ps[1..], kind);
      assert ps == [ps[0]] + ps[1..];
    }
  }

  /** Non-increasing by year, the order the comparator `b.year - a.year` asks for. */
  ghost predicate SortedByYearDesc(s: seq<Project>) {
    forall i, j :: 0 <= i < j < |s| ==> s[i].year >= s[j].year
  }

  /** The projects of s with the given year, in the order s has them. */
  function WithYear(s: seq<Project>, year: int): seq<Project> {
    if s == [] then []
    else (if s[0].year == year then [s[0]] else []) + WithYear(s[1..], year)
  }

  /** Puts p in front of the first element whose year is not larger, so that p stays
      ahead of the projects of its own year that follow it. */
  function InsertByYear(p: Project, s: seq<Project>): seq<Project> {
    if s == [] then [p]
    else if s[0].year <= p.year then [p] + s
    else [s[0]] + InsertByYear(p, s[1..])
  }

  /** `Array.prototype.sort` with `(a, b) => b.year - a.year`: a stable sort,
      written as an insertion sort. */
  function SortByYearDesc(s: seq<Project>): seq<Project> {
    if s == [] then [] else InsertByYear(s[0], SortByYearDesc(s[1..]))
  }

  function MobileProjects(ps: seq<Project>): seq<Project> {
    SortByYearDesc(OfType(Others(ps), Mobile))
  }

  function WebProjects(ps: seq<Project>): seq<Project> {
    SortByYearDesc(OfType(Others(ps), Web))
  }

  lemma {:induction false} InsertPermutes(p: Project, s: seq<Project>)
    ensures multiset(InsertByYear(p, s)) == multiset(s) + multiset{p}
  {
    if s == [] {
      assert InsertByYear(p, s) == [p];
    } else if s[0].year <= p.year {
      assert InsertByYear(p, s) == [p] + s;
    } else {
      var rest := InsertByYear(p, s[1..]);
      assert InsertByYear(p, s) == [s[0]] + rest;
      InsertPermutes(p, s[1..]);
      assert multiset(s) == multiset{s[0]} + multiset(s[1..]) by {
        assert s == [s[0]] + s[1..];
      }
    }
  }

  lemma {:induction false} InsertSorted(p: Project, s: seq<Project>)
    requires SortedByYearDesc(s)
    ensures SortedByYearDesc(InsertByYear(p, s))
  {
    if s == [] {
    } else if s[0].year <= p.year {
      assert forall j :: 0 <= j < |s| ==> s[j].year <= s[0].year;
    } else {
      var rest := InsertByYear(p, s[1..]);
      assert InsertByYear(p, s) == [s[0]] + rest;
      assert SortedByYearDesc(s[1..]);
      InsertSorted(p, s[1..]);
      assert forall j :: 0 <= j < |rest| ==> rest[j].year <= s[0].year by {
        InsertPermutes(p, s[1..]);
        forall j | 0 <= j < |rest| ensures rest[j].year <= s[0].year {
          assert rest[j] in multiset(rest);
          assert rest[j] == p || rest[j] in multiset(s[1..]);
        }
      }
    }
  }

  lemma WithYearCons(x: Project, s: seq<Project>, year: int)
    ensures WithYear([x] + s, year) == (if x.year == year then [x] else []) + WithYear(s, year)
  {
    assert ([x] + s)[1..] == s;
  }

  lemma {:induction false} InsertKeepsYearOrder(p: Project, s: seq<Project>, year: int)
    ensures WithYear(InsertByYear(p, s), year)
         == (if p.year == year then [p] else []) + WithYear(s, year)
  {
    if s == [] {
    } else if s[0].year <= p.year {
      WithYearCons(p, s, year);
    } else {
      var rest := InsertByYear(p, s[1..]);
      assert InsertByYear(p, s) == [s[0]] + rest;
      assert s == [s[0]] + s[1..];
      InsertKeepsYearOrder(p, s[1..], year);
      WithYearCons(s[0], rest, year);
      WithYearCons(s[0], s[1..], year);
      if s[0].year == year {
        assert p.year != year;
      }
    }
  }

  /** The sort returns a non-increasing permutation of its input and is stable:
      projects of one year keep their relative order. */
  lemma {:induction false} SortByYearDescCorrect(s: seq<Project>)
    ensures SortedByYearDesc(SortByYearDesc(s))
    ensures multiset(SortByYearDesc(s)) == multiset(s)
    ensures forall year :: WithYear(SortByYearDesc(s), year) == WithYear(s, year)
  {
    if s != [] {
      SortByYearDescCorrect(s[1..]);
      InsertSorted(s[0], SortByYearDesc(s[1..]));
      InsertPermutes(s[0], SortByYearDesc(s[1..]));
      assert s == [s[0]] + s[1..];
      forall year ensures WithYear(SortByYearDesc(s), year) == WithYear(s, year) {
        InsertKeepsYearOrder(s[0], SortByYearDesc(s[1..]), year);
      }
    }
  }

  /** Since `type` is "web" | "mobile", the two filters split a list between them. */
  lemma {:induction false} OfTypeSplits(ps: seq<Project>)
    ensures multiset(OfType(ps, Mobile)) + multiset(OfType(ps, Web)) == multiset(ps)
  {
    if ps != [] {
      var x := ps[0];
      var m := OfType(ps[1..], Mobile);
      var w := OfType(ps[1..], Web);
      OfTypeSplits(ps[1..]);
      assert multiset(ps) == multiset{x} + multiset(ps[1..]) by {
        assert ps == [x] + ps[1..];
      }
      assert multiset(OfType(ps, Mobile)) + multiset(OfType(ps, Web))
          == multiset{x} + (multiset(m) + multiset(w)) by {
        if x.kind == Mobile {
          assert OfType(ps, Mobile) == [x] + m;
          assert OfType(ps, Web) == w;
        } else {
          assert OfType(ps, Mobile) == m;
          assert OfType(ps, Web) == [x] + w;
        }
      }
    }
  }

  /** The mobile list holds only mobile projects, the web list only web projects; both
      are sorted by year, non-increasing, and together they are a permutation of
      `projects.slice(1)`. */
  lemma PartitionCorrect(ps: seq<Project>)
    ensures forall p :: p in MobileProjects(ps) ==> p.kind == Mobile
    ensures forall p :: p in WebProjects(ps) ==> p.kind == Web
    ensures SortedByYearDesc(MobileProjects(ps)) && SortedByYearDesc(WebProjects(ps))
    ensures multiset(MobileProjects(ps)) + multiset(WebProjects(ps)) == multiset(Others(ps))
  {
    var m := OfType(Others(ps), Mobile);
    var w := OfType(Others(ps), Web);
    SortByYearDescCorrect(m);
    SortByYearDescCorrect(w);
    OfTypeSplits(Others(ps));
    OfTypeMembers(Others(ps), Mobile);
    OfTypeMembers(Others(ps), Web);
    forall p | p in MobileProjects(ps) ensures p.kind == Mobile {
      assert p in multiset(MobileProjects(ps));
      assert p in m;
    }
    forall p | p in WebProjects(ps) ensures p.kind == Web {
      assert p in multiset(WebProjects(ps));
      assert p in w;
    }
  }

  /** The featured project is in neither list, as long as it is not repeated later in
      the list (slugs are unique, so it never is in the site's data). */
  lemma FeaturedNotListed(ps: seq<Project>)
    requires |ps| > 0 && ps[0] !in ps[1..]
    ensures ps[0] !in MobileProjects(ps) && ps[0] !in WebProjects(ps)
  {
    var x := ps[0];
    PartitionCorrect(ps);
    assert Others(ps) == ps[1..];
    assert multiset(Others(ps))[x] == 0;
    assert multiset(MobileProjects(ps))[x] == 0 && multiset(WebProjects(ps))[x] == 0;
  }

  /** For the site's own data: "evera" is featured and is in neither list. */
  lemma SiteFeatured()
    ensures Featured(Projects) == Some(Projects[0]) && Projects[0].slug == "evera"
    ensures Projects[0] !in MobileProjects(Projects) && Projects[0] !in WebProjects(Projects)
  {
    SlugsUnique();
    assert forall i :: 1 <= i < |Projects| ==> Projects[i] != Projects[0];
    FeaturedNotListed(Projects);
  }

  /** The site's type pattern: web, web, mobile, web, web, web, mobile, web; the two
      mobile projects are both from 2024. */
  lemma SiteKinds()
    ensures |Projects| == 8
    ensures Projects[1].kind == Web && Projects[2].kind == Mobile && Projects[3].kind == Web
    ensures Projects[4].kind == Web && Projects[5].kind == Web && Projects[6].kind == Mobile
    ensures Projects[7].kind == Web
    ensures Projects[2].year == 2024 && Projects[6].year == 2024
  {
  }

  /** The site's mobile list is RunMate then TripMate: same year, source order kept. */
  lemma SiteMobileList()
    ensures MobileProjects(Projects) == [Projects[2], Projects[6]]
  {
    SiteKinds();
    var others := Projects[1..];
    assert Others(Projects) == others;
    assert others[1] == Projects[2] && others[5] == Projects[6];
    MobileOfSeven(others);
    SortTwo(Projects[2], Projects[6]);
  }

  lemma SortTwo(a: Project, b: Project)
    requires b.year <= a.year
    ensures SortByYearDesc([a, b]) == [a, b]
  {
    assert [a, b][1..] == [b];
    assert SortByYearDesc([b]) == [b];
  }

  lemma MobileOfSeven(s: seq<Project>)
    requires |s| == 7
    requires s[0].kind == Web && s[1].kind == Mobile && s[2].kind == Web && s[3].kind == Web
    requires s[4].kind == Web && s[5].kind == Mobile && s[6].kind == Web
    ensures OfType(s, Mobile) == [s[1], s[5]]
  {
    assert OfType(s[6..], Mobile) == [] by {
      OfTypeStep(s, 6);
      assert s[7..] == [];
    }
    assert OfType(s[5..], Mobile) == [s[5]] by { OfTypeStep(s, 5); }
    assert OfType(s[4..], Mobile) == [s[5]] by { OfTypeStep(s, 4); }
    assert OfType(s[3..], Mobile) == [s[5]] by { OfTypeStep(s, 3); }
    assert OfType(s[2..], Mobile) == [s[5]] by { OfTypeStep(s, 2); }
    assert OfType(s[1..], Mobile) == [s[1], s[5]] by { OfTypeStep(s, 1); }
    assert OfType(s[0..], Mobile) == [s[1], s[5]] by { OfTypeStep(s, 0); }
    assert s[0..] == s;
  }

  lemma OfTypeStep(ps: seq<Project>, i: nat)
    requires i < |ps|
    ensures OfType(ps[i..], Mobile)
         == (if ps[i].kind == Mobile then [ps[i]] else []) + OfType(ps[i + 1..], Mobile)
  {
    assert ps[i..][1..] == ps[i + 1..];
  }

  // ---------------------------------------------------------------------------
  // Card numbering

  /** The `index` prop each card receives, mobile cards first: `index + 1` for the mobile
      list and `index + mobileProjects.length + 1` for the web list. */
  function CardNumbers(mobileCount: nat, webCount: nat): (r: seq<nat>)
    ensures |r| == mobileCount + webCount
    ensures forall k :: 0 <= k < |r| ==> r[k] == k + 1
  {
    seq(mobileCount, i => i + 1) + seq(webCount, i => i + mobileCount + 1)
  }

  /** The props are pairwise distinct: no two cards receive the same index. */
  lemma CardNumbersDistinct(mobileCount: nat, webCount: nat)
    ensures forall i, j :: 0 <= i < j < mobileCount + webCount ==>
      CardNumbers(mobileCount, webCount)[i] != CardNumbers(mobileCount, webCount)[j]
  {
  }

  // ---------------------------------------------------------------------------
  // SplitChars

  /** One `<span>` of a split title: its React key, its text and whether it carries
      the fixed 0.3em width given to spaces. */
  datatype CharSpan = CharSpan(key: nat, content: char, spaceWidth: bool)

  const NoBreakSpace: char := '\U{00A0}'

  function SplitChars(text: string): (r: seq<CharSpan>)
    ensures |r| == |text|
    ensures forall i :: 0 <= i < |r| ==> r[i].key == i
    ensures forall i :: 0 <= i < |r| ==>
      (if text[i] == ' ' then r[i].content == NoBreakSpace && r[i].spaceWidth
       else r[i].content == text[i] && !r[i].spaceWidth)
  {
    seq(|text|, i requires 0 <= i < |text| =>
      CharSpan(i, if text[i] == ' ' then NoBreakSpace else text[i], text[i] == ' '))
  }

  /** The text the spans display. */
  function Shown(spans: seq<CharSpan>): (s: string)
    ensures |s| == |spans|
    ensures forall i :: 0 <= i < |s| ==> s[i] == spans[i].content
  {
    seq(|spans|, i requires 0 <= i < |spans| => spans[i].content)
  }

  /** Splitting keeps one unit per character and shows no collapsible space; splitting
      the shown text again yields the same text and the same number of units. */
  lemma SplitCharsIdempotent(text: string)
    ensures ' ' !in Shown(SplitChars(text))
    ensures Shown(SplitChars(Shown(SplitChars(text)))) == Shown(SplitChars(text))
    ensures |SplitChars(Shown(SplitChars(text)))| == |text|
  {
    var once := Shown(SplitChars(text));
    assert forall i :: 0 <= i < |once| ==> once[i] != ' ';
  }

  // ---------------------------------------------------------------------------
  // Featured card details

  /** `getProjectTypeLabel`: the three known types are translated, anything else is
      returned as it is. */
  function ProjectTypeLabel(locale: Locale, projectType: string): (r: string)
    ensures projectType == "professional" ==>
      r == (if locale == Fr then "CDI Professionnel" else "Professional")
    ensures projectType == "freelance" ==> r == "Freelance"
    ensures projectType == "personal" ==>
      r == (if locale == Fr then "Personnel" else "Personal")
    ensures r == projectType <==>
      projectType != "professional" && projectType != "freelance" && projectType != "personal"
  {
    if locale == Fr then
      match projectType
      case "professional" => "CDI Professionnel"
      case "freelance" => "Freelance"
      case "personal" => "Personnel"
      case _ => projectType
    else
      match projectType
      case "professional" => "Professional"
      case "freelance" => "Freelance"
      case "personal" => "Personal"
      case _ => projectType
  }

  /** `technologies.slice(0, 4)`: the first min(4, n) technologies, in order. */
  function FeaturedTechnologies(technologies: seq<string>): (r: seq<string>)
    ensures |r| == if |technologies| < 4 then |technologies| else 4
    ensures forall i :: 0 <= i < |r| ==> r[i] == technologies[i]
  {
    if |technologies| <= 4 then technologies else technologies[..4]
  }

  /** `projectTranslations?.shortDescription || project.shortDescription`. */
  function ShortDescription(t: Dictionary, p: Project): (r: string)
    ensures p.slug in t.projectData && t.projectData[p.slug].shortDescription != "" ==>
      r == t.projectData[p.slug].shortDescription
    ensures !(p.slug in t.projectData && t.projectData[p.slug].shortDescription != "") ==>
      r == p.shortDescription
  {
    if p.slug in t.projectData && t.projectData[p.slug].shortDescription != "" then
      t.projectData[p.slug].shortDescription
    else
      p.shortDescription
  }

  /** Every project of the site has a translated short description in both locales, so
      the card always shows the translated text. */
  lemma SiteDescriptionsTranslated(locale: Locale, i: nat)
    requires i < |Projects|
    ensures Projects[i].slug in TranslationsFor(locale).projectData
    ensures ShortDescription(TranslationsFor(locale), Projects[i])
         == TranslationsFor(locale).projectData[Projects[i].slug].shortDescription
  {
  }
}
