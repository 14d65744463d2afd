/** The all-default skills map every new or normalised card starts from. */
module SkillHelpers {
  import opened SkillConfig
  import opened CardTypes

  /** The skills map with the default entry under every skill and nothing else. */
  function EmptySkills(): (skills: map<SkillName, Skill>)
    ensures Complete(skills)
    ensures forall k :: k in skills ==> skills[k] == EmptySkill
  {
    TableShape();
    map k | k in AllSkills :: EmptySkill
  }

  /**
   * `createEmptySkills`: walks the skill table and stores the default entry under each key, so the
   * map has exactly the eighteen skills, each untrained with modifier 0 and no value.
   */
  method CreateEmptySkills() returns (skills: map<SkillName, Skill>)
    ensures skills == EmptySkills()
    ensures |skills| == 18
  {
    skills := map[];
    for i := 0 to |AllSkills|
      invariant skills.Keys == set j | 0 <= j < i :: AllSkills[j]
      invariant forall k :: k in skills ==> skills[k] == EmptySkill
    {
      skills := skills[AllSkills[i] := EmptySkill];
    }
    TableShape();
    assert skills.Keys == EmptySkills().Keys by {
      forall k ensures k in skills {
        assert AllSkills[SkillIndex(k)] == k;
      }
    }
    EmptySkillsCount();
  }

  /** There are eighteen entries, one per skill. */
  lemma EmptySkillsCount()
    ensures |EmptySkills()| == 18
  {
    TableShape();
    var keys := EmptySkills().Keys;
    assert keys == set j | 0 <= j < |AllSkills| :: AllSkills[j];
    DistinctSeqCard(AllSkills, |AllSkills|);
  }

  /** A sequence with no repeated element has as many distinct elements as positions. */
  lemma {:induction false} DistinctSeqCard(s: seq<SkillName>, n: nat)
    requires n <= |s|
    requires forall i, j :: 0 <= i < j < |s| ==> s[i] != s[j]
    ensures |set j | 0 <= j < n :: s[j]| == n
  {
    if n > 0 {
      DistinctSeqCard(s, n - 1);
      var prev := set j | 0 <= j < n - 1 :: s[j];
      assert (set j | 0 <= j < n :: s[j]) == prev + {s[n - 1]};
      assert s[n - 1] !in prev;
    }
  }
}
