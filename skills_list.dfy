/** The cutter's skill list: a placeholder when there are no skills, otherwise
    a copy of the skills sorted by proficiency, highest first, each shown with
    five level markers of which the first `proficiency_level` are highlighted. */
module SkillsList {
  import opened Wrappers
  import opened JsValues
  import opened Seqs

  datatype Skill = Skill(skillId: int, name: string, description: Option<string>, proficiencyLevel: int)

  /** `(a, b) => b.proficiency_level - a.proficiency_level` allows `a` first. */
  predicate HigherOrEqual(a: Skill, b: Skill) {
    a.proficiencyLevel >= b.proficiencyLevel
  }

  lemma HigherOrEqualTotalPreorder()
    ensures TotalPreorder(HigherOrEqual)
  {
  }

  /** `[...skills].sort(...)`: a sorted copy; `skills` itself is a value and
      stays as it was. */
  function SortedSkills(skills: seq<Skill>): seq<Skill> {
    SortBy(skills, HigherOrEqual)
  }

  /** The displayed order holds exactly the given skills, by non-increasing
      proficiency, and skills of equal proficiency keep their given order. */
  lemma SortedSkillsOrder(skills: seq<Skill>)
    ensures multiset(SortedSkills(skills)) == multiset(skills)
    ensures forall i, j :: 0 <= i < j < |SortedSkills(skills)| ==>
      SortedSkills(skills)[i].proficiencyLevel >= SortedSkills(skills)[j].proficiencyLevel
    ensures forall c: Skill :: Filter(SortedSkills(skills), EquivTo(c, HigherOrEqual))
                               == Filter(skills, EquivTo(c, HigherOrEqual))
  {
    HigherOrEqualTotalPreorder();
    SortBySorted(skills, HigherOrEqual);
    forall c: Skill ensures Filter(SortedSkills(skills), EquivTo(c, HigherOrEqual))
                            == Filter(skills, EquivTo(c, HigherOrEqual)) {
      SortByStable(skills, c, HigherOrEqual);
    }
  }

  /** The five markers `[1, 2, 3, 4, 5]`: marker `k`, at index `k - 1`, is
      highlighted when `k <= proficiency_level`. */
  function LevelMarkers(level: int): (markers: seq<bool>)
    ensures |markers| == 5
    ensures forall i :: 0 <= i < 5 ==> markers[i] == (i + 1 <= level)
  {
    seq(5, i => i + 1 <= level)
  }

  /** The level limited to the markers shown, zero to five. */
  function Clamp(level: int): (n: nat)
    ensures n <= 5
  {
    if level < 0 then 0 else if level > 5 then 5 else level
  }

  /** The highlighted markers form a prefix, as long as the level limited to
      zero to five. */
  lemma {:induction false} HighlightedPrefix(level: int)
    ensures LevelMarkers(level) == seq(Clamp(level), _ => true) + seq(5 - Clamp(level), _ => false)
    ensures multiset(LevelMarkers(level))[true] == Clamp(level)
  {
    var m := LevelMarkers(level);
    var n := Clamp(level);
    assert m == seq(n, _ => true) + seq(5 - n, _ => false);
    TrueCount(n, 5 - n);
  }

  lemma {:induction false} TrueCount(t: nat, f: nat)
    ensures multiset(seq(t, _ => true) + seq(f, _ => false))[true] == t
  {
    var ts, fs := seq(t, _ => true), seq(f, _ => false);
    assert multiset(ts + fs) == multiset(ts) + multiset(fs);
    assert multiset(fs)[true] == 0 by {
      assert true !in fs;
    }
    AllTrueCount(t);
  }

  lemma {:induction false} AllTrueCount(t: nat)
    ensures multiset(seq(t, _ => true))[true] == t
  {
    if t > 0 {
      assert seq(t, _ => true) == seq(t - 1, _ => true) + [true];
      AllTrueCount(t - 1);
    }
  }

  /** One rendered skill: its markers, and whether the description paragraph appears. */
  datatype SkillRow = SkillRow(skill: Skill, markers: seq<bool>, showsDescription: bool)

  datatype SkillsView = Placeholder | Listed(rows: seq<SkillRow>)

  /** The component's output for `skills`. */
  function Render(skills: seq<Skill>): (view: SkillsView)
    ensures view.Placeholder? <==> |skills| == 0
    ensures view.Listed? ==>
      |view.rows| == |skills|
      && forall i :: 0 <= i < |view.rows| ==>
           view.rows[i].skill == SortedSkills(skills)[i]
           && view.rows[i].markers == LevelMarkers(SortedSkills(skills)[i].proficiencyLevel)
           && (view.rows[i].showsDescription <==> TruthyOptString(SortedSkills(skills)[i].description))
  {
    if |skills| == 0 then Placeholder
    else
      var sorted := SortedSkills(skills);
      Listed(seq(|sorted|, i requires 0 <= i < |sorted| =>
        SkillRow(sorted[i], LevelMarkers(sorted[i].proficiencyLevel), TruthyOptString(sorted[i].description))))
  }
}
