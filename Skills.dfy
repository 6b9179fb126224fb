/** The skills section (app/components/Skills.tsx): the category table, how a
    category's heading is chosen, and the staggered reveal delays. */
module Skills {
  import opened Wrappers
  import opened Translations

  /** One entry of `skillCategories`; `label` and `highlight` are optional there. */
  datatype SkillCategory = SkillCategory(key: string, ownLabel: Option<string>, skills: seq<string>, highlight: bool)

  const SkillCategories: seq<SkillCategory> := [
    SkillCategory("frontend", None,
      ["React", "TypeScript", "Angular", "Svelte", "Tailwind CSS", "Next.js"], false),
    SkillCategory("backend", None,
      ["Node.js", "Ruby", "Python", "SQL", "PostgreSQL", "MongoDB"], false),
    SkillCategory("ai", Some("AI & LLM"),
      ["Claude Code", "Claude API", "OpenAI", "Prompt Engineering", "RAG"], true),
    SkillCategory("devops", None,
      ["Git", "Docker", "GitHub Actions", "Scaleway", "Render", "Vercel"], false),
    SkillCategory("tools", None,
      ["Figma", "Notion", "VS Code", "Cursor", "Linear"], false)
  ]

  /** A present, non-empty string: JavaScript truthiness of an optional string. */
  predicate Truthy(s: Option<string>) {
    s.Some? && s.value != ""
  }

  /** `getLabel`: an own non-empty label wins; otherwise the translated category name
      when the dictionary has a non-empty one; otherwise the raw key. */
  function GetLabel(key: string, ownLabel: Option<string>, categories: map<string, string>): (r: string)
    ensures Truthy(ownLabel) ==> r == ownLabel.value
    ensures !Truthy(ownLabel) && key in categories && categories[key] != "" ==> r == categories[key]
    ensures !Truthy(ownLabel) && !(key in categories && categories[key] != "") ==> r == key
  {
    if Truthy(ownLabel) then ownLabel.value
    else if key in categories && categories[key] != "" then categories[key]
    else key
  }

  /** Whatever the dictionary holds, a category whose key is non-empty never gets an
      empty heading. */
  lemma LabelNonEmpty(key: string, ownLabel: Option<string>, categories: map<string, string>)
    requires key != ""
    ensures GetLabel(key, ownLabel, categories) != ""
  {
  }

  /** The headings of all categories, in order. */
  function Headings(cats: seq<SkillCategory>, categories: map<string, string>): (r: seq<string>)
    ensures |r| == |cats|
    ensures forall i :: 0 <= i < |cats| ==> r[i] == GetLabel(cats[i].key, cats[i].ownLabel, categories)
  {
    seq(|cats|, i requires 0 <= i < |cats| => GetLabel(cats[i].key, cats[i].ownLabel, categories))
  }

  /** `0.05 * catIndex` seconds, in milliseconds: categories appear one after another. */
  function CategoryDelayMs(catIndex: nat): (r: nat)
    ensures r == 0 <==> catIndex == 0
  {
    50 * catIndex
  }

  /** `0.1 + 0.03 * index` seconds, in milliseconds: no skill badge starts before 100 ms. */
  function SkillDelayMs(index: nat): (r: nat)
    ensures r >= 100
  {
    100 + 30 * index
  }

  /** Later categories and later badges within a category never start earlier. */
  lemma DelaysIncrease(i: nat, j: nat)
    requires i < j
    ensures CategoryDelayMs(i) < CategoryDelayMs(j)
    ensures SkillDelayMs(i) < SkillDelayMs(j)
  {
  }

  /** Every element of s differs from every other: React keys in one list are unique. */
  predicate Distinct<T(==)>(s: seq<T>) {
    forall i, j :: 0 <= i < j < |s| ==> s[i] != s[j]
  }

  function Keys(cats: seq<SkillCategory>): (r: seq<string>)
    ensures |r| == |cats|
    ensures forall i :: 0 <= i < |cats| ==> r[i] == cats[i].key
  {
    seq(|cats|, i requires 0 <= i < |cats| => cats[i].key)
  }

  /** The table's shape: five categories with distinct keys, distinct skills within
      each, and only "ai" carries its own ownLabel and the highlight overlay. */
  lemma SiteCategories()
    ensures |SkillCategories| == 5
    ensures Keys(SkillCategories) == ["frontend", "backend", "ai", "devops", "tools"]
    ensures Distinct(Keys(SkillCategories))
    ensures forall i :: 0 <= i < |SkillCategories| ==> Distinct(SkillCategories[i].skills)
    ensures forall i :: 0 <= i < |SkillCategories| ==>
      (SkillCategories[i].highlight <==> SkillCategories[i].key == "ai")
    ensures forall i :: 0 <= i < |SkillCategories| ==>
      (SkillCategories[i].ownLabel.Some? <==> SkillCategories[i].key == "ai")
  {
  }

  /** The headings the site shows in English. */
  lemma SiteHeadingsEnglish()
    ensures Headings(SkillCategories, English.skillCategories)
      == ["Frontend", "Backend", "AI & LLM", "DevOps & Cloud", "Design & Tools"]
  {
    var h := Headings(SkillCategories, English.skillCategories);
    assert h[0] == "Frontend" && h[1] == "Backend" && h[2] == "AI & LLM";
    assert h[3] == "DevOps & Cloud" && h[4] == "Design & Tools";
  }

  /** The headings the site shows in French: only the tools category differs. */
  lemma SiteHeadingsFrench()
    ensures Headings(SkillCategories, French.skillCategories)
      == ["Frontend", "Backend", "AI & LLM", "DevOps & Cloud", "Design & Outils"]
  {
    var h := Headings(SkillCategories, French.skillCategories);
    assert h[0] == "Frontend" && h[1] == "Backend" && h[2] == "AI & LLM";
    assert h[3] == "DevOps & Cloud" && h[4] == "Design & Outils";
  }
}
