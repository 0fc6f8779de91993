/**
 * The skills section: four skill categories behind tabs, the skill list of
 * the selected category with a proficiency bar per skill, and an endless
 * marquee of technology names built from the name list written twice.
 */
module Skills {
  import opened Wrappers

  /** A skill and its proficiency, a percentage. */
  datatype Skill = Skill(name: string, proficiency: int)

  /** A tab: its title, the key that selects it, and its skills. */
  datatype SkillCategory = SkillCategory(title: string, key: string, skills: seq<Skill>)

  /** The four categories, in tab order. */
  const SkillCategories: seq<SkillCategory> := [
    SkillCategory("Frontend", "frontend", [
      Skill("Next.js", 90), Skill("React.js", 90), Skill("TypeScript", 85),
      Skill("Tailwind CSS", 92), Skill("Framer Motion", 80), Skill("Redux / Zustand", 78)]),
    SkillCategory("Backend", "backend", [
      Skill("Node.js", 80), Skill("Supabase", 88), Skill("PostgreSQL", 82),
      Skill("MySQL", 78), Skill("Django", 65), Skill("REST APIs", 85)]),
    SkillCategory("ML & Data", "ml", [
      Skill("Python", 88), Skill("TensorFlow", 72), Skill("PyTorch", 68), Skill("OpenCV", 70),
      Skill("Pandas / NumPy", 85), Skill("Scikit-learn", 78), Skill("Power BI", 82)]),
    SkillCategory("Tools & Languages", "tools", [
      Skill("Git / GitHub", 88), Skill("Vercel", 85), Skill("JavaScript", 90), Skill("Python", 88),
      Skill("SQL", 82), Skill("C/C++", 70), Skill("Java", 65)])
  ]

  /** The technology names the marquee scrolls through. */
  const MarqueeItems: seq<string> := [
    "Next.js", "React", "TypeScript", "Tailwind CSS", "Node.js", "Supabase",
    "PostgreSQL", "Python", "TensorFlow", "PyTorch", "OpenCV", "Pandas",
    "Framer Motion", "Git", "Vercel", "Redis", "Power BI", "Scikit-learn"
  ]

  /** The tab selected on mount. */
  const InitialTab: string := "frontend"

  /** The position of the first category with the key, or the length when there is none. */
  function FirstKeyIndex(cats: seq<SkillCategory>, key: string): (i: nat)
    ensures i <= |cats|
    ensures forall j :: 0 <= j < i ==> cats[j].key != key
    ensures i < |cats| ==> cats[i].key == key
  {
    if |cats| == 0 then 0
    else if cats[0].key == key then 0
    else 1 + FirstKeyIndex(cats[1..], key)
  }

  /** `categories.find(c => c.key === key)`: the first category with that key, if any. */
  function Find(cats: seq<SkillCategory>, key: string): (r: Option<SkillCategory>)
    ensures r.None? <==> forall i :: 0 <= i < |cats| ==> cats[i].key != key
    ensures r.Some? ==>
      exists i :: 0 <= i < |cats| && cats[i] == r.value && (forall j :: 0 <= j < i ==> cats[j].key != key)
    ensures r.Some? ==> r.value.key == key
  {
    var i := FirstKeyIndex(cats, key);
    if i < |cats| then Some(cats[i]) else None
  }

  /** No two categories share a key. */
  predicate DistinctKeys(cats: seq<SkillCategory>)
  {
    forall i, j :: 0 <= i < j < |cats| ==> cats[i].key != cats[j].key
  }

  /** With distinct keys, looking a category's key up finds that category. */
  lemma {:induction false} FindSelected(cats: seq<SkillCategory>, i: nat)
    requires DistinctKeys(cats)
    requires i < |cats|
    ensures Find(cats, cats[i].key) == Some(cats[i])
  {
    if i > 0 {
      assert cats[0].key != cats[i].key;
      FindSelected(cats[1..], i - 1);
    }
  }

  /** The section's four keys are distinct. */
  lemma SkillKeysDistinct()
    ensures DistinctKeys(SkillCategories)
    ensures |SkillCategories| == 4
    ensures SkillCategories[0].key == InitialTab
  {
  }

  /** Every proficiency in the list is a percentage between 0 and 100. */
  predicate Percentages(skills: seq<Skill>)
  {
    forall k :: 0 <= k < |skills| ==> 0 <= skills[k].proficiency <= 100
  }

  /** Every proficiency of the section is a percentage between 0 and 100. */
  lemma ProficienciesInRange()
    ensures forall c :: 0 <= c < |SkillCategories| ==> Percentages(SkillCategories[c].skills)
  {
    assert Percentages(SkillCategories[0].skills);
    assert Percentages(SkillCategories[1].skills);
    assert Percentages(SkillCategories[2].skills);
    assert Percentages(SkillCategories[3].skills);
  }

  /** The filled share of a skill's bar: `width: proficiency%`. */
  function BarFraction(s: Skill): (w: real)
    ensures w * 100.0 == s.proficiency as real
    ensures 0 <= s.proficiency <= 100 ==> 0.0 <= w <= 1.0
  {
    s.proficiency as real / 100.0
  }

  /** The skills listed under the selected tab (`activeCat?.skills`): none when no category matches. */
  function ActiveSkills(cats: seq<SkillCategory>, activeTab: string): (skills: seq<Skill>)
    ensures Find(cats, activeTab).None? ==> skills == []
    ensures Find(cats, activeTab).Some? ==> skills == Find(cats, activeTab).value.skills
  {
    match Find(cats, activeTab)
    case None => []
    case Some(c) => c.skills
  }

  /** Which tabs render highlighted (white text and the sliding indicator). */
  function TabHighlights(cats: seq<SkillCategory>, activeTab: string): (lit: seq<bool>)
    ensures |lit| == |cats|
    ensures forall i :: 0 <= i < |cats| ==> (lit[i] <==> cats[i].key == activeTab)
  {
    seq(|cats|, i requires 0 <= i < |cats| => cats[i].key == activeTab)
  }

  /** With distinct keys, selecting tab `i` highlights tab `i` and no other. */
  lemma OneTabHighlighted(cats: seq<SkillCategory>, i: nat)
    requires DistinctKeys(cats)
    requires i < |cats|
    ensures forall j :: 0 <= j < |cats| ==> (TabHighlights(cats, cats[i].key)[j] <==> j == i)
  {
    forall j | 0 <= j < |cats| && j != i
      ensures cats[j].key != cats[i].key
    {
      if j < i {
        assert cats[j].key != cats[i].key;
      } else {
        assert cats[i].key != cats[j].key;
      }
    }
  }

  /** `[...items, ...items]`: the marquee row. */
  function Doubled<T>(items: seq<T>): (row: seq<T>)
    ensures |row| == 2 * |items|
    ensures row[..|items|] == items && row[|items|..] == items
  {
    items + items
  }

  /** The row rotated left by `k` entries, wrapping around. */
  function Shifted<T>(row: seq<T>, k: nat): (view: seq<T>)
    requires k <= |row|
    ensures |view| == |row|
    ensures forall i :: 0 <= i < |row| - k ==> view[i] == row[k + i]
  {
    row[k..] + row[..k]
  }

  /**
   * At the level of items: rotating the doubled row by half its entries
   * gives back the row, and each entry of the second half repeats the
   * entry half a row earlier. This is the sequence fact the marquee's
   * -50% keyframe relies on; pixel widths and gaps are not modelled.
   */
  lemma MarqueeSeamless<T>(items: seq<T>)
    ensures Shifted(Doubled(items), |items|) == Doubled(items)
    ensures forall i :: 0 <= i < |items| ==> Doubled(items)[i + |items|] == Doubled(items)[i]
  {
    var row := Doubled(items);
    assert row[|items|..] == items;
    assert row[..|items|] == items;
  }

  /** The marquee shows 36 names, the 18 names twice over. */
  lemma MarqueeLength()
    ensures |MarqueeItems| == 18 && |Doubled(MarqueeItems)| == 36
  {
  }

  /** The tab bar's state. */
  class SkillTabs {
    var activeTab: string

    /** The selected key always belongs to one of the categories. */
    ghost predicate Valid()
      reads this
    {
      exists i :: 0 <= i < |SkillCategories| && SkillCategories[i].key == activeTab
    }

    /** Mount: the Frontend tab is selected. */
    constructor ()
      ensures Valid() && activeTab == InitialTab
    {
      activeTab := InitialTab;
      assert SkillCategories[0].key == InitialTab;
    }

    /** Clicking tab `i` selects its key. */
    method ClickTab(i: nat)
      requires i < |SkillCategories|
      modifies this
      ensures Valid()
      ensures activeTab == SkillCategories[i].key
    {
      activeTab := SkillCategories[i].key;
    }

    /** The selected category: always found, with the selected key. */
    function ActiveCat(): (c: Option<SkillCategory>)
      reads this
      requires Valid()
      ensures c.Some? && c.value.key == activeTab && c.value in SkillCategories
    {
      Find(SkillCategories, activeTab)
    }
  }
}
