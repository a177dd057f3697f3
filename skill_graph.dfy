/** The skill graph (`Neo4jClient`) in mock mode: fixed tables looked up by exact
    name, a fixed path shape, and a case-insensitive substring search over a fixed
    list with a Python slice for the limit. */
module SkillGraph {

  import opened Text

  /** `mock_skills` of `get_related_skills`. */
  const RelatedTable: map<string, seq<string>> := map[
    "Python" := ["Django", "Flask", "FastAPI", "Data Analysis", "Machine Learning"],
    "JavaScript" := ["React", "Node.js", "TypeScript", "Vue.js", "Angular"],
    "React" := ["JavaScript", "TypeScript", "Redux", "Next.js", "HTML/CSS"],
    "Machine Learning" := ["Python", "TensorFlow", "PyTorch", "Data Science", "Statistics"]]

  /** The answer for a skill the table does not know. */
  const DefaultRelated: seq<string> := ["Data Analysis", "Problem Solving", "Communication"]

  /** `mock_prereqs` of `get_skill_prerequisites`. */
  const PrerequisiteTable: map<string, seq<string>> := map[
    "React" := ["JavaScript", "HTML/CSS"],
    "Django" := ["Python", "Web Development Basics"],
    "Machine Learning" := ["Python", "Statistics", "Linear Algebra"],
    "FastAPI" := ["Python", "REST APIs"]]

  /** `get_related_skills`: the table's entry for exactly this name, else the default;
      `limit` plays no part. */
  function RelatedSkills(skillName: string, limit: int): (r: seq<string>)
    ensures skillName in RelatedTable ==> r == RelatedTable[skillName]
    ensures skillName !in RelatedTable ==> r == DefaultRelated
  {
    if skillName in RelatedTable then RelatedTable[skillName] else DefaultRelated
  }

  /** The limit never changes the answer. */
  lemma RelatedSkillsIgnoreLimit(skillName: string, a: int, b: int)
    ensures RelatedSkills(skillName, a) == RelatedSkills(skillName, b)
  {
  }

  /** The lookup is by exact name: "python" is not "Python". */
  lemma RelatedSkillsAreCaseSensitive(limit: int)
    ensures RelatedSkills("python", limit) == DefaultRelated
    ensures RelatedSkills("Python", limit) != DefaultRelated
  {
    assert "python"[0] != "Python"[0];
    assert "python" != "JavaScript" && "python" != "React" && "python" != "Machine Learning";
    assert RelatedTable["Python"][0] != DefaultRelated[0];
  }

  /** `get_skill_prerequisites`: the table's entry, else no prerequisites. */
  function SkillPrerequisites(skillName: string): (r: seq<string>)
    ensures skillName in PrerequisiteTable ==> r == PrerequisiteTable[skillName]
    ensures skillName !in PrerequisiteTable ==> r == []
  {
    if skillName in PrerequisiteTable then PrerequisiteTable[skillName] else []
  }

  /** `get_skill_learning_path`: three steps from `start` to `target`. */
  function SkillLearningPath(start: string, target: string): (r: seq<string>)
    ensures |r| == 3 && r[0] == start && r[1] == "Intermediate Skill" && r[2] == target
  {
    [start, "Intermediate Skill", target]
  }

  /** One `search_skills` record. */
  datatype SkillEntry = SkillEntry(name: string, category: string)

  /** `mock_results`. */
  const Catalog: seq<SkillEntry> := [
    SkillEntry("Python Programming", "Programming"),
    SkillEntry("JavaScript Development", "Programming"),
    SkillEntry("Machine Learning", "Data Science"),
    SkillEntry("React Development", "Web Development"),
    SkillEntry("Data Analysis", "Data Science")]

  /** `query.lower() in s["name"].lower()`. */
  predicate Matches(query: string, e: SkillEntry)
  {
    Contains(Lower(e.name), Lower(query))
  }

  /** `a` is `b` with some elements left out, the rest in their order. */
  predicate IsSubsequence<T(==)>(a: seq<T>, b: seq<T>)
    decreases |b|
  {
    if a == [] then true
    else if b == [] then false
    else if a[0] == b[0] then IsSubsequence(a[1..], b[1..])
    else IsSubsequence(a, b[1..])
  }

  /** The comprehension `[s for s in entries if ...]`: the matching entries in order. */
  function Matching(query: string, entries: seq<SkillEntry>): (r: seq<SkillEntry>)
    ensures |r| <= |entries|
    ensures forall i :: 0 <= i < |r| ==> Matches(query, r[i])
    ensures forall i :: 0 <= i < |entries| && Matches(query, entries[i]) ==> entries[i] in r
    ensures IsSubsequence(r, entries)
    decreases |entries|
  {
    if entries == [] then []
    else
      var rest := Matching(query, entries[1..]);
      assert forall i :: 1 <= i < |entries| ==> entries[i] == entries[1..][i - 1];
      if Matches(query, entries[0]) then [entries[0]] + rest
      else
        SkipHeadKeepsSubsequence(rest, entries);
        rest
  }

  /** The filter keeps every matching entry as often as it occurs and drops every
      other one: element by element, its count is that of the input or zero. */
  lemma {:induction false} MatchingCounts(query: string, entries: seq<SkillEntry>, e: SkillEntry)
    ensures multiset(Matching(query, entries))[e] == if Matches(query, e) then multiset(entries)[e] else 0
    decreases |entries|
  {
    if entries != [] {
      MatchingCounts(query, entries[1..], e);
      assert entries == [entries[0]] + entries[1..];
      assert multiset(entries) == multiset{entries[0]} + multiset(entries[1..]);
    }
  }

  /** Leaving out the first element of `b` keeps a subsequence of its tail one of `b`. */
  lemma {:induction false} SkipHeadKeepsSubsequence<T>(a: seq<T>, b: seq<T>)
    requires b != [] && IsSubsequence(a, b[1..])
    ensures IsSubsequence(a, b)
    decreases |b|, |a|
  {
    if a != [] && a[0] == b[0] {
      SubsequenceOfTail(a, b[1..]);
    }
  }

  /** Dropping the first element of a non-empty subsequence keeps it a subsequence. */
  lemma {:induction false} SubsequenceOfTail<T>(a: seq<T>, b: seq<T>)
    requires a != [] && IsSubsequence(a, b)
    ensures IsSubsequence(a[1..], b)
    decreases |b|, |a|
  {
    if b == [] {
    } else if a[0] == b[0] {
      SkipHeadKeepsSubsequence(a[1..], b);
    } else {
      SubsequenceOfTail(a, b[1..]);
      SkipHeadKeepsSubsequence(a[1..], b);
    }
  }

  /** A prefix of a subsequence is a subsequence. */
  lemma {:induction false} PrefixOfSubsequence<T>(a: seq<T>, b: seq<T>, n: nat)
    requires n <= |a| && IsSubsequence(a, b)
    ensures IsSubsequence(a[..n], b)
    decreases |b|
  {
    if n == 0 || a == [] {
    } else if b == [] {
    } else if a[0] == b[0] {
      PrefixOfSubsequence(a[1..], b[1..], n - 1);
      assert a[..n][1..] == a[1..][..n - 1];
    } else {
      PrefixOfSubsequence(a, b[1..], n);
      assert a[..n][0] == a[0];
    }
  }

  /** `xs[:limit]`: the first `limit` items, or for a negative limit all but the last
      `-limit`. */
  function Slice<T>(xs: seq<T>, limit: int): (r: seq<T>)
    ensures |r| <= |xs| && r == xs[..|r|]
    ensures limit >= 0 ==> |r| == if limit < |xs| then limit else |xs|
    ensures limit < 0 ==> |r| == if |xs| + limit > 0 then |xs| + limit else 0
  {
    var n := if limit >= 0 then (if limit < |xs| then limit else |xs|)
             else (if |xs| + limit > 0 then |xs| + limit else 0);
    xs[..n]
  }

  /** `search_skills`: the catalog entries whose name contains the query, ignoring case,
      in catalog order and cut by the slice. The answer is a prefix of all the matches,
      as long as the slice allows, so every match is returned once the limit covers
      them all. */
  function SearchSkills(query: string, limit: int): (r: seq<SkillEntry>)
    ensures forall i :: 0 <= i < |r| ==> Matches(query, r[i])
    ensures IsSubsequence(r, Catalog)
    ensures var m := Matching(query, Catalog);
      && |r| <= |m| && r == m[..|r|]
      && (limit >= 0 ==> |r| == if limit < |m| then limit else |m|)
      && (limit < 0 ==> |r| == if |m| + limit > 0 then |m| + limit else 0)
    ensures limit >= |Matching(query, Catalog)| ==> r == Matching(query, Catalog)
  {
    var all := Matching(query, Catalog);
    var r := Slice(all, limit);
    PrefixOfSubsequence(all, Catalog, |r|);
    r
  }

  /** Every string contains the empty query. */
  lemma ContainsEmpty(s: string)
    ensures Contains(s, "")
  {
    if s != [] {
      assert s[..0] == "";
    }
  }

  /** The empty query matches every entry. */
  lemma {:induction false} EmptyQueryMatchesAll(entries: seq<SkillEntry>)
    ensures Matching("", entries) == entries
    decreases |entries|
  {
    if entries != [] {
      ContainsEmpty(Lower(entries[0].name));
      EmptyQueryMatchesAll(entries[1..]);
      assert [entries[0]] + entries[1..] == entries;
    }
  }

  /** With an empty query the search returns the first `limit` entries (all five once
      the limit reaches five). */
  lemma EmptyQueryTakesPrefix(limit: int)
    requires limit >= 0
    ensures SearchSkills("", limit) == Catalog[..if limit < 5 then limit else 5]
  {
    EmptyQueryMatchesAll(Catalog);
  }
}
