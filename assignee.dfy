/**
 The `suggestAssignee` tool: a priority-ordered keyword classifier over the
 lower-cased title of a task.
 */
module Assignee {
  import opened Text

  const Alice := "alice"
  const Bob := "bob"
  const CiBot := "ci-bot"
  const Unassigned := "unassigned"

  /** True when the lower-cased title includes `keyword`. */
  predicate Mentions(title: string, keyword: string)
  {
    Contains(ToLower(title), keyword)
  }

  /**
   The classifier as the handler writes it: fix/bug, then design/ux, then
   deploy/ci, otherwise unassigned; the first rule that matches wins.
   */
  function SuggestAssignee(title: string): (r: string)
    ensures r == Alice <==> Mentions(title, "fix") || Mentions(title, "bug")
    ensures r == Bob <==> !Mentions(title, "fix") && !Mentions(title, "bug")
                          && (Mentions(title, "design") || Mentions(title, "ux"))
    ensures r == Unassigned <==> forall k :: k in Keywords ==> !Mentions(title, k)
    ensures r in {Alice, Bob, CiBot, Unassigned}
  {
    var lowered := ToLower(title);
    if Contains(lowered, "fix") || Contains(lowered, "bug") then Alice
    else if Contains(lowered, "design") || Contains(lowered, "ux") then Bob
    else if Contains(lowered, "deploy") || Contains(lowered, "ci") then CiBot
    else Unassigned
  }

  /** A missing title is read as the empty title, which mentions no keyword. */
  lemma EmptyTitleUnassigned()
    ensures SuggestAssignee("") == Unassigned
  {
    forall k | k in Keywords
      ensures !Mentions("", k)
    {
      assert ToLower("") == "";
    }
  }

  /** Every keyword of the classifier. */
  const Keywords: set<string> := {"fix", "bug", "design", "ux", "deploy", "ci"}

  /** One rule of the classifier: any of `keywords` selects `assignee`. */
  datatype Rule = Rule(keywords: seq<string>, assignee: string)

  /** The rules in the order they are tried. */
  const Rules: seq<Rule> := [
    Rule(["fix", "bug"], Alice),
    Rule(["design", "ux"], Bob),
    Rule(["deploy", "ci"], CiBot)
  ]

  predicate AnyIn(text: string, keywords: seq<string>)
  {
    exists i :: 0 <= i < |keywords| && Contains(text, keywords[i])
  }

  /** Reference reading of a rule table: the assignee of the first rule that matches `text`. */
  function FirstMatch(rules: seq<Rule>, text: string): string
  {
    if rules == [] then Unassigned
    else if AnyIn(text, rules[0].keywords) then rules[0].assignee
    else FirstMatch(rules[1..], text)
  }

  /** The handler's if/else chain is the rule table read first to last. */
  lemma SuggestFollowsRules(title: string)
    ensures SuggestAssignee(title) == FirstMatch(Rules, ToLower(title))
  {
    var lowered := ToLower(title);
    var rest1, rest2, rest3 := Rules[1..], Rules[2..], Rules[3..];
    assert rest1 == [Rules[1], Rules[2]] && rest1[1..] == rest2 && rest2 == [Rules[2]] && rest2[1..] == rest3 == [];
    assert FirstMatch(rest3, lowered) == Unassigned;
    PairMatch(lowered, "deploy", "ci");
    assert FirstMatch(rest2, lowered) == if Contains(lowered, "deploy") || Contains(lowered, "ci") then CiBot else Unassigned;
    PairMatch(lowered, "design", "ux");
    assert FirstMatch(rest1, lowered) == if Contains(lowered, "design") || Contains(lowered, "ux") then Bob else FirstMatch(rest2, lowered);
    PairMatch(lowered, "fix", "bug");
  }

  /** A two-keyword rule matches when either keyword occurs. */
  lemma PairMatch(text: string, first: string, second: string)
    ensures AnyIn(text, [first, second]) <==> Contains(text, first) || Contains(text, second)
  {
    var ks := [first, second];
    if Contains(text, first) {
      assert Contains(text, ks[0]);
    } else if Contains(text, second) {
      assert Contains(text, ks[1]);
    }
  }

  /** The classification ignores letter case. */
  lemma SuggestIgnoresCase(title: string)
    ensures SuggestAssignee(ToLower(title)) == SuggestAssignee(title)
  {
    ToLowerIdempotent(title);
  }

  /** "Fix login bug" goes to alice: the first rule matches. */
  lemma SuggestFixLoginBug(title: string)
    requires title == "Fix login bug"
    ensures SuggestAssignee(title) == Alice
  {
    var s := ToLower(title);
    assert s[..3] == "fix";
  }

  /** "Redesign UX flow" goes to bob: no fix/bug, but "design" occurs. */
  lemma SuggestRedesignUxFlow(title: string)
    requires title == "Redesign UX flow"
    ensures SuggestAssignee(title) == Bob
  {
    RedesignUxFlowLacksFixBug(title);
    var s := ToLower(title);
    assert s[2..8] == "design";
    assert OccursAt(s, "design", 2);
    ContainsIffOccurs(s, "design");
  }

  /** "Redesign UX flow" mentions neither fix nor bug. */
  lemma RedesignUxFlowLacksFixBug(title: string)
    requires title == "Redesign UX flow"
    ensures !Mentions(title, "fix") && !Mentions(title, "bug")
  {
    var s := ToLower(title);
    assert s == "redesign ux flow";
    assert !Contains(s, "fix") by { AbsentByLastPair(s, "fix", 'i', 'x'); }
    assert !Contains(s, "bug") by { AbsentByLastPair(s, "bug", 'u', 'g'); }
  }

  /** "Deploy to CI" goes to ci-bot: only the third rule matches. */
  lemma SuggestDeployToCi(title: string)
    requires title == "Deploy to CI"
    ensures SuggestAssignee(title) == CiBot
  {
    DeployToCiLacksFixBug(title);
    DeployToCiLacksDesignUx(title);
    var s := ToLower(title);
    assert s[..6] == "deploy";
  }

  /** "Deploy to CI" mentions neither fix nor bug. */
  lemma DeployToCiLacksFixBug(title: string)
    requires title == "Deploy to CI"
    ensures !Mentions(title, "fix") && !Mentions(title, "bug")
  {
    var s := ToLower(title);
    assert s == "deploy to ci";
    assert !Contains(s, "fix") by { AbsentByLastPair(s, "fix", 'i', 'x'); }
    assert !Contains(s, "bug") by { AbsentByLastPair(s, "bug", 'u', 'g'); }
  }

  /** "Deploy to CI" mentions neither design nor ux. */
  lemma DeployToCiLacksDesignUx(title: string)
    requires title == "Deploy to CI"
    ensures !Mentions(title, "design") && !Mentions(title, "ux")
  {
    var s := ToLower(title);
    assert s == "deploy to ci";
    assert !Contains(s, "design") by { AbsentByLastPair(s, "design", 'g', 'n'); }
    assert !Contains(s, "ux") by { AbsentByLastPair(s, "ux", 'u', 'x'); }
  }

  /** "Write docs" matches no rule and stays unassigned. */
  lemma SuggestWriteDocs(title: string)
    requires title == "Write docs"
    ensures SuggestAssignee(title) == Unassigned
  {
    WriteDocsLacksFixBug(title);
    WriteDocsLacksDesignUx(title);
    WriteDocsLacksDeployCi(title);
  }

  /** "Write docs" mentions neither fix nor bug. */
  lemma WriteDocsLacksFixBug(title: string)
    requires title == "Write docs"
    ensures !Mentions(title, "fix") && !Mentions(title, "bug")
  {
    var s := ToLower(title);
    assert s == "write docs";
    assert !Contains(s, "fix") by { AbsentByLastPair(s, "fix", 'i', 'x'); }
    assert !Contains(s, "bug") by { AbsentByLastPair(s, "bug", 'u', 'g'); }
  }

  /** "Write docs" mentions neither design nor ux. */
  lemma WriteDocsLacksDesignUx(title: string)
    requires title == "Write docs"
    ensures !Mentions(title, "design") && !Mentions(title, "ux")
  {
    var s := ToLower(title);
    assert s == "write docs";
    assert !Contains(s, "design") by { AbsentByLastPair(s, "design", 'g', 'n'); }
    assert !Contains(s, "ux") by { AbsentByLastPair(s, "ux", 'u', 'x'); }
  }

  /** "Write docs" mentions neither deploy nor ci. */
  lemma WriteDocsLacksDeployCi(title: string)
    requires title == "Write docs"
    ensures !Mentions(title, "deploy") && !Mentions(title, "ci")
  {
    var s := ToLower(title);
    assert s == "write docs";
    assert !Contains(s, "deploy") by { AbsentByLastPair(s, "deploy", 'o', 'y'); }
    assert !Contains(s, "ci") by { AbsentByLastPair(s, "ci", 'c', 'i'); }
  }

  /** Rule order decides between overlapping keywords: a fix for the CI pipeline goes to alice. */
  lemma SuggestEarlierRuleWins(title: string)
    requires title == "Fix CI pipeline"
    ensures Mentions(title, "fix") && Mentions(title, "ci")
    ensures SuggestAssignee(title) == Alice
  {
    var s := ToLower(title);
    assert s[..3] == "fix";
    assert s[4..6] == "ci";
    assert OccursAt(s, "ci", 4);
    ContainsIffOccurs(s, "ci");
  }
}
