/**
 * The skills radar chart: one proficiency score per skill category, looked up
 * in a fixed table with 50 for a category the table does not name.
 */
module Radar {

  /** The skill categories, in the order the skills table lists them. */
  const SkillCategories: seq<string> := ["AI / ML", "Blockchain", "DevOps / Automation", "Cloud & Infra"]

  const DefaultScore: int := 50

  /** The proficiency table as written: its third key is spelled "Devops", not "DevOps". */
  const ValuesMap: map<string, int> :=
    map["AI / ML" := 85, "Blockchain" := 70, "Devops / Automation" := 60, "Cloud & Infra" := 65]

  /** The table with the key spelled as in the skills table. */
  const IntendedValuesMap: map<string, int> :=
    map["AI / ML" := 85, "Blockchain" := 70, "DevOps / Automation" := 60, "Cloud & Infra" := 65]

  /** `values_map.get(cat, 50)`. */
  function Score(table: map<string, int>, category: string): int
  {
    if category in table then table[category] else DefaultScore
  }

  /** The list comprehension over the categories, for a given table. */
  function ScoresWith(table: map<string, int>, categories: seq<string>): (values: seq<int>)
    ensures |values| == |categories|
    ensures forall i :: 0 <= i < |categories| ==> values[i] == Score(table, categories[i])
  {
    if |categories| == 0 then [] else [Score(table, categories[0])] + ScoresWith(table, categories[1..])
  }

  /**
   * The radar values as the chart computes them: one per category, with a
   * "DevOps / Automation" category drawn at the default because the table
   * spells its key "Devops / Automation".
   */
  function RadarValues(categories: seq<string>): (values: seq<int>)
    ensures |values| == |categories|
    ensures forall i :: 0 <= i < |categories| && categories[i] == "DevOps / Automation" ==> values[i] == DefaultScore
    ensures forall i :: 0 <= i < |categories| && categories[i] == "Devops / Automation" ==> values[i] == 60
  {
    ScoresWith(ValuesMap, categories)
  }

  /** The radar values with the corrected key: no skill category falls back to the default. */
  function RadarValuesIntended(categories: seq<string>): (values: seq<int>)
    ensures |values| == |categories|
    ensures forall i :: 0 <= i < |categories| && categories[i] in SkillCategories ==> values[i] != DefaultScore
  {
    ScoresWith(IntendedValuesMap, categories)
  }

  /** Every score lies on the radial axis, whose range is 0 to 100. */
  lemma ScoresOnAxis(categories: seq<string>)
    ensures forall v :: v in RadarValues(categories) ==> 0 <= v <= 100
    ensures forall v :: v in RadarValuesIntended(categories) ==> 0 <= v <= 100
  {
  }

  /**
   * As written, the DevOps category misses its table entry because of the
   * key's spelling and is drawn at the default 50 instead of 60.
   */
  lemma DevOpsDrawnAtDefault()
    ensures "DevOps / Automation" !in ValuesMap
    ensures RadarValues(SkillCategories) == [85, 70, 50, 65]
  {
  }

  /** With the corrected key every skill category has its own score and none falls back to 50. */
  lemma IntendedScoresEveryCategory()
    ensures forall c :: c in SkillCategories ==> c in IntendedValuesMap
    ensures RadarValuesIntended(SkillCategories) == [85, 70, 60, 65]
  {
  }
}
