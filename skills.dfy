/** The skill catalogue: skills grouped by category, the module-level
    `skillGroups` array, and its two queries. Both queries only read it. */
module Skills {
  import opened Wrappers

  datatype SkillCategory = Frontend | Backend | Database | DevOps | AiMl | Tools | Other
  {
    /** The category's string value. */
    function Name(): string
    {
      match this
      case Frontend => "Frontend"
      case Backend => "Backend"
      case Database => "Database"
      case DevOps => "DevOps"
      case AiMl => "AI/ML"
      case Tools => "Tools"
      case Other => "Other"
    }
  }

  datatype Proficiency = Beginner | Intermediate | Advanced | Expert

  datatype Skill = Skill(name: string, category: SkillCategory, icon: Option<string>, proficiency: Option<Proficiency>)

  datatype SkillGroup = SkillGroup(category: SkillCategory, skills: seq<Skill>)

  /** Distinct categories name distinct strings. */
  lemma NameInjective(a: SkillCategory, b: SkillCategory)
    ensures a.Name() == b.Name() ==> a == b
  {
  }

  /** `groups.find(group => group.category === category)?.skills || []`: the
      skills of the first group with that category, or none. A found group's
      `skills` array is never falsy, so `|| []` only covers the missing group. */
  function SkillsOf(groups: seq<SkillGroup>, category: string): (r: seq<Skill>)
    ensures (forall i :: 0 <= i < |groups| ==> groups[i].category.Name() != category) ==> r == []
    ensures forall i ::
      (0 <= i < |groups| && groups[i].category.Name() == category &&
       (forall j :: 0 <= j < i ==> groups[j].category.Name() != category)) ==> r == groups[i].skills
  {
    if groups == [] then []
    else if groups[0].category.Name() == category then groups[0].skills
    else
      var r := SkillsOf(groups[1..], category);
      assert forall i :: 1 <= i < |groups| ==> groups[i] == groups[1..][i - 1];
      r
  }

  /** Every skill of the group carries the group's category. */
  predicate Consistent(g: SkillGroup)
  {
    forall k :: 0 <= k < |g.skills| ==> g.skills[k].category == g.category
  }

  /** Group categories are pairwise distinct and every group is consistent. */
  predicate WellGrouped(groups: seq<SkillGroup>)
  {
    (forall i, j :: 0 <= i < j < |groups| ==> groups[i].category != groups[j].category) &&
    (forall i :: 0 <= i < |groups| ==> Consistent(groups[i]))
  }

  /** In well-grouped data every skill returned has the requested category. */
  lemma {:induction false} SkillsOfMatchCategory(groups: seq<SkillGroup>, category: string)
    requires WellGrouped(groups)
    ensures forall k :: 0 <= k < |SkillsOf(groups, category)| ==> SkillsOf(groups, category)[k].category.Name() == category
  {
    if groups != [] && groups[0].category.Name() != category {
      assert WellGrouped(groups[1..]) by {
        forall i | 0 <= i < |groups[1..]|
          ensures Consistent(groups[1..][i])
        {
          assert groups[1..][i] == groups[i + 1];
        }
      }
      SkillsOfMatchCategory(groups[1..], category);
    }
  }

  /** In well-grouped data the first match is the only match: the query returns
      the skills of the one group of that category, wherever it stands. */
  lemma SkillsOfUnique(groups: seq<SkillGroup>, i: int)
    requires WellGrouped(groups) && 0 <= i < |groups|
    ensures SkillsOf(groups, groups[i].category.Name()) == groups[i].skills
  {
    forall j | 0 <= j < i
      ensures groups[j].category.Name() != groups[i].category.Name()
    {
      NameInjective(groups[j].category, groups[i].category);
    }
  }

  /** A string that names no category finds no skills. */
  lemma UnknownCategoryHasNoSkills(groups: seq<SkillGroup>, category: string)
    requires forall c: SkillCategory :: c.Name() != category
    ensures SkillsOf(groups, category) == []
  {
  }

  function FrontendGroup(): SkillGroup
  {
    SkillGroup(Frontend, [
      Skill("React", Frontend, None, Some(Expert)),
      Skill("Next.js", Frontend, None, Some(Expert)),
      Skill("TypeScript", Frontend, None, Some(Expert)),
      Skill("JavaScript", Frontend, None, Some(Expert)),
      Skill("TailwindCSS", Frontend, None, Some(Expert)),
      Skill("HTML/CSS", Frontend, None, Some(Expert)),
      Skill("Framer Motion", Frontend, None, Some(Advanced)),
      Skill("Radix UI", Frontend, None, Some(Advanced)),
      Skill("React Hook Form", Frontend, None, Some(Advanced))
    ])
  }

  function BackendGroup(): SkillGroup
  {
    SkillGroup(Backend, [
      Skill("Node.js", Backend, None, Some(Expert)),
      Skill("NextAuth", Backend, None, Some(Advanced)),
      Skill("API Development", Backend, None, Some(Expert)),
      Skill("Authentication", Backend, None, Some(Expert)),
      Skill("REST APIs", Backend, None, Some(Expert)),
      Skill("Stripe", Backend, None, Some(Advanced)),
      Skill("SendGrid", Backend, None, Some(Advanced)),
      Skill("Twilio", Backend, None, Some(Intermediate))
    ])
  }

  function DatabaseGroup(): SkillGroup
  {
    SkillGroup(Database, [
      Skill("MongoDB", Database, None, Some(Expert)),
      Skill("Mongoose", Database, None, Some(Expert)),
      Skill("Redis", Database, None, Some(Advanced)),
      Skill("Database Design", Database, None, Some(Expert))
    ])
  }

  function AiMlGroup(): SkillGroup
  {
    SkillGroup(AiMl, [
      Skill("Claude AI (Anthropic)", AiMl, None, Some(Advanced)),
      Skill("OpenAI GPT", AiMl, None, Some(Advanced)),
      Skill("Prompt Engineering", AiMl, None, Some(Advanced)),
      Skill("AI Integration", AiMl, None, Some(Advanced))
    ])
  }

  function DevOpsGroup(): SkillGroup
  {
    SkillGroup(DevOps, [
      Skill("Git", DevOps, None, Some(Expert)),
      Skill("GitHub", DevOps, None, Some(Expert)),
      Skill("Vercel", DevOps, None, Some(Advanced)),
      Skill("CI/CD", DevOps, None, Some(Advanced)),
      Skill("Testing (Vitest)", DevOps, None, Some(Advanced)),
      Skill("Playwright E2E", DevOps, None, Some(Intermediate))
    ])
  }

  function ToolsGroup(): SkillGroup
  {
    SkillGroup(Tools, [
      Skill("VS Code", Tools, None, Some(Expert)),
      Skill("Postman", Tools, None, Some(Advanced)),
      Skill("Figma", Tools, None, Some(Intermediate)),
      Skill("npm/pnpm", Tools, None, Some(Expert)),
      Skill("ESLint", Tools, None, Some(Advanced)),
      Skill("Prettier", Tools, None, Some(Advanced))
    ])
  }

  /** The module-level `skillGroups` array. */
  function SkillGroups(): seq<SkillGroup>
  {
    [FrontendGroup(), BackendGroup(), DatabaseGroup(), AiMlGroup(), DevOpsGroup(), ToolsGroup()]
  }

  /** `getAllSkills()`: the shared array itself, six well-grouped groups. */
  function GetAllSkills(): (r: seq<SkillGroup>)
    ensures WellGrouped(r) && |r| == 6
  {
    ShippedSkillsWellGrouped();
    SkillGroups()
  }

  /** In well-grouped data, a category filed under group `i` finds that group's skills. */
  lemma SkillsOfFindsGroup(groups: seq<SkillGroup>, category: string)
    requires WellGrouped(groups)
    ensures forall i :: 0 <= i < |groups| && groups[i].category.Name() == category ==>
      SkillsOf(groups, category) == groups[i].skills
  {
    forall i | 0 <= i < |groups| && groups[i].category.Name() == category
      ensures SkillsOf(groups, category) == groups[i].skills
    {
      SkillsOfUnique(groups, i);
    }
  }

  /** `getSkillsByCategory(category)` over the shipped groups: the skills of the
      group filed under `category`, or none when no group is, and every skill it
      returns has the requested category. */
  function GetSkillsByCategory(category: string): (r: seq<Skill>)
    ensures forall i :: 0 <= i < |GetAllSkills()| && GetAllSkills()[i].category.Name() == category ==>
      r == GetAllSkills()[i].skills
    ensures (forall i :: 0 <= i < |GetAllSkills()| ==> GetAllSkills()[i].category.Name() != category) ==> r == []
    ensures forall k :: 0 <= k < |r| ==> r[k].category.Name() == category
  {
    var groups := GetAllSkills();
    SkillsOfMatchCategory(groups, category);
    SkillsOfFindsGroup(groups, category);
    SkillsOf(groups, category)
  }

  /** The shipped data is well grouped: six groups of distinct categories, each
      skill filed under its own category. */
  lemma ShippedSkillsWellGrouped()
    ensures WellGrouped(SkillGroups()) && |SkillGroups()| == 6
  {
    FrontendConsistent();
    BackendConsistent();
    OtherGroupsConsistent();
  }

  lemma FrontendConsistent()
    ensures Consistent(FrontendGroup())
  {
  }

  lemma BackendConsistent()
    ensures Consistent(BackendGroup())
  {
  }

  lemma OtherGroupsConsistent()
    ensures Consistent(DatabaseGroup()) && Consistent(AiMlGroup())
    ensures Consistent(DevOpsGroup()) && Consistent(ToolsGroup())
  {
  }

  /** "Other" is a category with no group, so it finds no skills. */
  lemma OtherHasNoSkills()
    ensures GetSkillsByCategory("Other") == []
  {
    var gs := SkillGroups();
    assert forall i :: 0 <= i < |gs| ==> gs[i].category != Other;
    forall i | 0 <= i < |gs|
      ensures gs[i].category.Name() != "Other"
    {
      NameInjective(gs[i].category, Other);
    }
  }

  /** "Frontend" finds the nine front-end skills, React first. */
  lemma FrontendSkills()
    ensures |GetSkillsByCategory("Frontend")| == 9 && GetSkillsByCategory("Frontend")[0].name == "React"
  {
    ShippedSkillsWellGrouped();
    SkillsOfUnique(SkillGroups(), 0);
  }
}
