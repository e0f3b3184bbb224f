/**
 * The skill categories of the skills section, the tab slugs derived from
 * their names, and the `data-width` string each skill bar animates to.
 */
module SkillData {
  import opened Text
  import opened Slugs
  import opened Seqs

  /** A skill with its level, documented as a percentage in 0..100. */
  datatype Skill = Skill(name: string, level: int)

  datatype SkillCategory = SkillCategory(name: string, skills: seq<Skill>)

  const SkillCategories: seq<SkillCategory> := [
    SkillCategory("Backend & Systems", [Skill("Python", 90), Skill("Node.js", 85), Skill("Databases", 80)]),
    SkillCategory("CI/CD & Automation", [Skill("GitHub Actions", 85), Skill("Vercel", 90), Skill("Redis", 75)]),
    SkillCategory("AI/ML Engineering",
      [Skill("TensorFlow", 85), Skill("PyTorch", 80), Skill("NLP", 90), Skill("Reinforcement Learning", 85)]),
    SkillCategory("Quantitative Development",
      [Skill("Algorithmic Trading", 90), Skill("Risk Management", 85), Skill("Data Ingestion", 80),
       Skill("LEAN Framework", 82)]),
    SkillCategory("Simulations", [Skill("CUDA", 85), Skill("Quantum Monte Carlo", 80), Skill("Hybrid HHL Solvers", 75)]),
    SkillCategory("Full-Stack Development",
      [Skill("React", 90), Skill("Next.js", 95), Skill("TypeScript", 85), Skill("Supabase", 80)])
  ]

  /** Every level in the data is a percentage. */
  predicate LevelsInRange(cats: seq<SkillCategory>) {
    forall i, j :: 0 <= i < |cats| && 0 <= j < |cats[i].skills| ==> 0 <= cats[i].skills[j].level <= 100
  }

  lemma SkillLevelsInRange()
    ensures LevelsInRange(SkillCategories)
  {
  }

  /** The class of a tab's content: `tab-` followed by the slug of the category name. */
  function TabClass(c: SkillCategory): (r: string)
    ensures |r| >= 4 && r[..4] == "tab-"
    ensures forall i :: 4 <= i < |r| ==> SlugChar(r[i])
    ensures NoDoubleDash(r[4..])
    ensures Filter(r[4..], NotDash) == Filter(Lower(c.name), IsLowerAlnum)
  {
    SlugLetters(c.name);
    assert ("tab-" + SanitizeClassName(c.name))[4..] == SanitizeClassName(c.name);
    "tab-" + SanitizeClassName(c.name)
  }

  /** Two tabs get the same class exactly when their names have the same slug. */
  lemma TabClassIffSameSlug(a: SkillCategory, b: SkillCategory)
    ensures TabClass(a) == TabClass(b) <==> SanitizeClassName(a.name) == SanitizeClassName(b.name)
  {
    assert TabClass(a)[4..] == SanitizeClassName(a.name);
    assert TabClass(b)[4..] == SanitizeClassName(b.name);
  }

  /** The initial letters of the six category names, lower-cased. */
  const SlugHeads := "bcaqsf"

  /** Each category's slug starts with the lower-cased first letter of its name. */
  lemma SlugsStartWithHeads()
    ensures forall i :: 0 <= i < |SkillCategories| ==>
      SanitizeClassName(SkillCategories[i].name) != [] && SanitizeClassName(SkillCategories[i].name)[0] == SlugHeads[i]
  {
    forall i | 0 <= i < |SkillCategories|
      ensures SanitizeClassName(SkillCategories[i].name) != [] && SanitizeClassName(SkillCategories[i].name)[0] == SlugHeads[i]
    {
      var name := SkillCategories[i].name;
      assert LowerChar(name[0]) == SlugHeads[i];
    }
  }

  /**
   * The six category names have pairwise distinct slugs, so the selector
   * `.tab-<slug>` built from the active tab picks out exactly that tab's
   * content.
   */
  lemma TabSlugsDistinct()
    ensures forall i, j :: 0 <= i < j < |SkillCategories| ==>
      SanitizeClassName(SkillCategories[i].name) != SanitizeClassName(SkillCategories[j].name)
  {
    SlugsStartWithHeads();
    forall i, j | 0 <= i < j < |SkillCategories|
      ensures SanitizeClassName(SkillCategories[i].name) != SanitizeClassName(SkillCategories[j].name)
    {
      HeadsDistinct(i, j);
    }
  }

  lemma HeadsDistinct(i: nat, j: nat)
    requires i < j < |SlugHeads|
    ensures SlugHeads[i] != SlugHeads[j]
  {
  }

  /** The tab content a category's selector matches is that category's own. */
  lemma SelectorMatchesOneTab(active: nat)
    requires active < |SkillCategories|
    ensures forall i :: 0 <= i < |SkillCategories| ==>
      (TabClass(SkillCategories[i]) == TabClass(SkillCategories[active]) <==> i == active)
  {
    TabSlugsDistinct();
    forall i | 0 <= i < |SkillCategories| && TabClass(SkillCategories[i]) == TabClass(SkillCategories[active])
      ensures i == active
    {
      assert TabClass(SkillCategories[i])[4..] == TabClass(SkillCategories[active])[4..];
    }
  }

  /**
   * `` `${skill.level}%` ``: the width a skill bar animates to. The number
   * before the `%` is written in decimal digits, after an optional minus
   * sign, and reads back as the level.
   */
  function DataWidth(level: int): (w: string)
    ensures |w| >= 2 && w[|w| - 1] == '%'
    ensures var digits := w[..|w| - 1];
      && (digits[0] == '-' ==> AllDigits(digits[1..])) && (digits[0] != '-' ==> AllDigits(digits))
      && ParseInt(digits) == level
  {
    IntToStringRoundTrip(level);
    assert (IntToString(level) + "%")[..|IntToString(level)|] == IntToString(level);
    IntToString(level) + "%"
  }

  /** For the levels in the data the width has no minus sign: a percentage from "0%" to "100%". */
  lemma DataWidthOfPercentage(level: int)
    requires 0 <= level <= 100
    ensures var w := DataWidth(level); 2 <= |w| <= 4 && AllDigits(w[..|w| - 1])
  {
    var n: nat := level;
    if n >= 10 {
      assert NatToString(n) == NatToString(n / 10) + [DigitChar(n % 10)];
      if n / 10 >= 10 {
        assert NatToString(n / 10) == NatToString(n / 100) + [DigitChar(n / 10 % 10)];
      }
    }
  }
}
