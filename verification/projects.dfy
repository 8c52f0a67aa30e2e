/**
 * The Tech Showcase page: each project gets categories from an ordered chain
 * of keyword tests, and the page lists the projects that carry the category
 * chosen with the filter chips.
 */
module Projects {
  import opened Text
  import opened Seqs

  /** The fields of a project entry that the categorisation reads. */
  datatype Project = Project(title: string, description: string, stack: string)

  const All: string := "All"
  const AiMl: string := "AI/ML"
  const Blockchain: string := "Blockchain"
  const DataScience: string := "Data Science"
  const General: string := "General"

  /** The filter chips, in display order. */
  const FilterChips: seq<string> := [All, AiMl, Blockchain, DataScience]

  /** The only category lists the categorisation can produce. */
  const CategoryLists: seq<seq<string>> := [[AiMl, DataScience], [Blockchain], [AiMl], [DataScience], [General]]

  /** The lower-cased `title description stack` that the keyword tests run on. */
  function SearchText(title: string, description: string, stack: string): string
  {
    Lower(title + " " + description + " " + stack)
  }

  /** The if/elif chain of `categorize_project`, on the lower-cased text: the first keyword group that occurs decides. */
  function CategorizeText(text: string): (cats: seq<string>)
    ensures cats in CategoryLists
  {
    if Contains(text, "eduregion") || Contains(text, "guardianai") then [AiMl, DataScience]
    else if Contains(text, "blockchain") || Contains(text, "near") || Contains(text, "rootstock") || Contains(text, "celo") then [Blockchain]
    else if Contains(text, "ai") || Contains(text, "ml") || Contains(text, "langchain") then [AiMl]
    else if Contains(text, "data") || Contains(text, "pandas") || Contains(text, "analysis") then [DataScience]
    else [General]
  }

  /** `categorize_project`: the keyword chain on the lower-cased `title description stack`. */
  function CategorizeProject(title: string, description: string, stack: string): (cats: seq<string>)
    ensures cats in CategoryLists
  {
    CategorizeText(SearchText(title, description, stack))
  }

  function Categories(p: Project): seq<string>
  {
    CategorizeProject(p.title, p.description, p.stack)
  }

  // An independent, table-driven statement of the same rule chain.

  datatype Rule = Rule(keywords: seq<string>, categories: seq<string>)

  const Rules: seq<Rule> := [
    Rule(["eduregion", "guardianai"], [AiMl, DataScience]),
    Rule(["blockchain", "near", "rootstock", "celo"], [Blockchain]),
    Rule(["ai", "ml", "langchain"], [AiMl]),
    Rule(["data", "pandas", "analysis"], [DataScience])
  ]

  predicate AnyOccurs(text: string, keywords: seq<string>)
  {
    |keywords| > 0 && (Contains(text, keywords[0]) || AnyOccurs(text, keywords[1..]))
  }

  /** `AnyOccurs` holds exactly when some keyword of the list occurs. */
  lemma {:induction false} AnyOccursIff(text: string, keywords: seq<string>)
    ensures AnyOccurs(text, keywords) <==> exists w :: w in keywords && Contains(text, w)
  {
    if |keywords| > 0 {
      AnyOccursIff(text, keywords[1..]);
      if Contains(text, keywords[0]) {
        assert keywords[0] in keywords;
      }
      if AnyOccurs(text, keywords[1..]) {
        var w :| w in keywords[1..] && Contains(text, w);
        assert w in keywords;
      }
      forall w | w in keywords
        ensures w == keywords[0] || w in keywords[1..]
      {
        assert keywords == [keywords[0]] + keywords[1..];
      }
    }
  }

  /** The categories of the first rule with a keyword in `text`, or General when none has. */
  function FirstMatch(rules: seq<Rule>, text: string): seq<string>
  {
    if |rules| == 0 then [General]
    else if AnyOccurs(text, rules[0].keywords) then rules[0].categories
    else FirstMatch(rules[1..], text)
  }

  /** Every keyword of every rule, in rule order. */
  function Keywords(rules: seq<Rule>): seq<string>
  {
    if |rules| == 0 then [] else rules[0].keywords + Keywords(rules[1..])
  }

  /** The categorisation is the first-match reading of the rule table. */
  lemma CategorizeFollowsRules(title: string, description: string, stack: string)
    ensures CategorizeProject(title, description, stack) == FirstMatch(Rules, SearchText(title, description, stack))
  {
    ChainFollowsRules(SearchText(title, description, stack));
  }

  /** On any text, the keyword chain agrees with the first match in the rule table. */
  lemma ChainFollowsRules(text: string)
    ensures CategorizeText(text) == FirstMatch(Rules, text)
  {
    var r1, r2, r3 := Rules[1..], Rules[2..], Rules[3..];
    assert r1[1..] == r2 && r2[1..] == r3 && r3[1..] == [];
    assert AnyOccurs(text, Rules[0].keywords) <==> Contains(text, "eduregion") || Contains(text, "guardianai") by {
      AnyOccursIff(text, Rules[0].keywords);
    }
    assert AnyOccurs(text, Rules[1].keywords) <==>
      Contains(text, "blockchain") || Contains(text, "near") || Contains(text, "rootstock") || Contains(text, "celo") by {
      AnyOccursIff(text, Rules[1].keywords);
    }
    assert AnyOccurs(text, Rules[2].keywords) <==> Contains(text, "ai") || Contains(text, "ml") || Contains(text, "langchain") by {
      AnyOccursIff(text, Rules[2].keywords);
    }
    assert AnyOccurs(text, Rules[3].keywords) <==> Contains(text, "data") || Contains(text, "pandas") || Contains(text, "analysis") by {
      AnyOccursIff(text, Rules[3].keywords);
    }
    assert FirstMatch(r3, text) == if AnyOccurs(text, Rules[3].keywords) then [DataScience] else [General];
    assert FirstMatch(r2, text) == if AnyOccurs(text, Rules[2].keywords) then [AiMl] else FirstMatch(r3, text);
    assert FirstMatch(r1, text) == if AnyOccurs(text, Rules[1].keywords) then [Blockchain] else FirstMatch(r2, text);
    assert FirstMatch(Rules, text) == if AnyOccurs(text, Rules[0].keywords) then [AiMl, DataScience] else FirstMatch(r1, text);
  }

  /** The table falls through to General exactly when no keyword of any rule occurs. */
  lemma {:induction false} FirstMatchGeneralIff(rules: seq<Rule>, text: string)
    requires forall r :: r in rules ==> r.categories != [General]
    ensures FirstMatch(rules, text) == [General] <==> forall w :: w in Keywords(rules) ==> !Contains(text, w)
  {
    if |rules| > 0 {
      FirstMatchGeneralIff(rules[1..], text);
      AnyOccursIff(text, rules[0].keywords);
      assert Keywords(rules) == rules[0].keywords + Keywords(rules[1..]);
      assert rules[0] in rules;
    }
  }

  /**
   * A project is General exactly when none of eduregion, guardianai,
   * blockchain, near, rootstock, celo, ai, ml, langchain, data, pandas or
   * analysis occurs in its lower-cased text.
   */
  lemma GeneralIffNoKeyword(title: string, description: string, stack: string)
    ensures CategorizeProject(title, description, stack) == [General] <==>
      forall w :: w in ["eduregion", "guardianai", "blockchain", "near", "rootstock", "celo",
                        "ai", "ml", "langchain", "data", "pandas", "analysis"]
        ==> !Contains(SearchText(title, description, stack), w)
  {
    CategorizeFollowsRules(title, description, stack);
    FirstMatchGeneralIff(Rules, SearchText(title, description, stack));
    RuleKeywords();
  }

  /** The table's keywords, in rule order. */
  lemma RuleKeywords()
    ensures Keywords(Rules) == ["eduregion", "guardianai", "blockchain", "near", "rootstock", "celo",
                                "ai", "ml", "langchain", "data", "pandas", "analysis"]
  {
    var r1, r2, r3 := Rules[1..], Rules[2..], Rules[3..];
    assert r1[1..] == r2 && r2[1..] == r3 && r3[1..] == [];
    assert Keywords(r3) == Rules[3].keywords + Keywords([]);
    assert Keywords(r2) == Rules[2].keywords + Keywords(r3);
    assert Keywords(r1) == Rules[1].keywords + Keywords(r2);
  }

  /**
   * Earlier rules win: a project mentioning eduregion or guardianai is AI/ML
   * and Data Science, and never Blockchain, whatever else its text says.
   */
  lemma EarlierRuleWins(title: string, description: string, stack: string)
    requires Contains(SearchText(title, description, stack), "eduregion") ||
             Contains(SearchText(title, description, stack), "guardianai")
    ensures CategorizeProject(title, description, stack) == [AiMl, DataScience]
    ensures Blockchain !in CategorizeProject(title, description, stack)
  {
  }

  /**
   * The keyword tests look for substrings, not words: "ai" occurs inside
   * "chain", so a project titled "Chain" is filed under AI/ML.
   */
  lemma KeywordInsideWord()
    ensures CategorizeProject("Chain", "", "") == [AiMl]
  {
    ChainLowered();
    ChainTextIsAiMl(SearchText("Chain", "", ""));
  }

  /** The lower-cased search text of a project titled "Chain" with nothing else. */
  lemma ChainLowered()
    ensures SearchText("Chain", "", "") == "chain  "
  {
    var text := SearchText("Chain", "", "");
    assert text == "chain  " by {
      var raw := "Chain" + " " + "" + " " + "";
      assert raw == "Chain  ";
      assert text == Lower(raw);
      assert text[0] == LowerChar('C') == 'c';
      assert text[1..] == raw[1..] by {
        forall k | 1 <= k < 7 ensures text[k] == raw[k] { assert !IsUpper(raw[k]); }
      }
    }
  }

  /** "chain  " holds "ai" and no keyword of an earlier group. */
  lemma ChainTextIsAiMl(text: string)
    requires text == "chain  "
    ensures CategorizeText(text) == [AiMl]
  {
    if Contains(text, "eduregion") { ContainsFits(text, "eduregion"); }
    if Contains(text, "guardianai") { ContainsFits(text, "guardianai"); }
    if Contains(text, "blockchain") { ContainsFits(text, "blockchain"); }
    if Contains(text, "rootstock") { ContainsFits(text, "rootstock"); }
    assert !Contains(text, "near") by {
      ContainsIffOccurs(text, "near");
      forall i | 0 <= i <= 3 ensures !OccursAt(text, "near", i) {
        assert text[i] != 'n';
        assert text[i..i + 4][0] == text[i];
      }
    }
    assert !Contains(text, "celo") by {
      ContainsIffOccurs(text, "celo");
      forall i | 0 <= i <= 3 ensures !OccursAt(text, "celo", i) {
        assert text[i + 1] != 'e';
        assert text[i..i + 4][1] == text[i + 1];
      }
    }
    assert OccursAt(text, "ai", 2);
    ContainsIffOccurs(text, "ai");
  }

  /** Whether the project filter loop keeps `p` for the chip `selected`. */
  predicate Shown(p: Project, selected: string)
  {
    selected in Categories(p) || selected == All
  }

  function ShownFor(selected: string): Project -> bool
  {
    p => Shown(p, selected)
  }

  /** The loop building `filtered_projects`. */
  method FilterProjects(projects: seq<Project>, selected: string) returns (filtered: seq<Project>)
    ensures filtered == Filter(projects, ShownFor(selected))
  {
    filtered := [];
    var i := 0;
    while i < |projects|
      invariant 0 <= i <= |projects|
      invariant filtered == Filter(projects[..i], ShownFor(selected))
    {
      var p := projects[i];
      FilterSnoc(projects[..i], p, ShownFor(selected));
      assert projects[..i + 1] == projects[..i] + [p];
      if selected in Categories(p) || selected == All {
        filtered := filtered + [p];
      }
      i := i + 1;
    }
    assert projects[..i] == projects;
  }

  /** With "All" selected every project is listed, in order. */
  lemma AllShowsEveryProject(projects: seq<Project>)
    ensures Filter(projects, ShownFor(All)) == projects
  {
  }

  /**
   * With any other chip the list is exactly the projects whose categories
   * contain it, in their original order.
   */
  lemma CategoryShowsItsProjects(projects: seq<Project>, selected: string)
    requires selected != All
    ensures var shown := Filter(projects, ShownFor(selected));
            && IsSubsequence(shown, projects)
            && (forall p :: p in shown <==> p in projects && selected in Categories(p))
            && |shown| == CountIf(projects, ShownFor(selected))
  {
    var f := ShownFor(selected);
    assert forall p :: f(p) == (selected in Categories(p));
    FilterCharacterization(projects, f);
  }

  /** Only the "All" chip lists a General project: no chip names that category. */
  lemma GeneralOnlyUnderAll(p: Project, selected: string)
    requires selected in FilterChips
    requires Categories(p) == [General]
    ensures Shown(p, selected) <==> selected == All
  {
  }
}
