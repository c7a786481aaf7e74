/**
 * The category keyword mapper (pkg/models/category_mapper.go): a feed's
 * free-form category strings are mapped to the names of the keyword groups
 * they match, each group at most once.
 */
module CategoryMapping {

  import opened Strings

  /** A named group and the keywords that select it. */
  datatype CategoryGroup = CategoryGroup(name: string, keywords: seq<string>)

  /** The groups a new mapper starts with. */
  const DefaultGroups: seq<CategoryGroup> := [
    CategoryGroup("Sports", ["sports", "sport", "football", "soccer", "basketball",
                             "rugby", "cricket", "tennis", "athletics", "olympics"]),
    CategoryGroup("Politics", ["politics", "political", "government", "parliament",
                               "election", "minister", "president", "democracy"]),
    CategoryGroup("Business", ["business", "economy", "finance", "financial",
                               "trade", "market", "stock", "investment", "banking"]),
    CategoryGroup("Technology", ["technology", "tech", "digital", "software",
                                 "hardware", "ai", "artificial intelligence", "computing"]),
    CategoryGroup("Entertainment", ["entertainment", "celebrity", "movie", "film",
                                    "music", "television", "tv", "show", "arts", "culture"]),
    CategoryGroup("Health", ["health", "medical", "medicine", "healthcare",
                             "wellness", "fitness", "hospital", "doctor"]),
    CategoryGroup("Education", ["education", "school", "university", "college",
                                "student", "learning", "academic", "teaching"])
  ]

  /** A category as it is compared: surrounding white space removed, lower-cased. */
  function Normalize(category: string): string {
    ToLower(TrimSpace(category))
  }

  /** A normalised category and a keyword match when either contains the other (ignoring case). */
  predicate KeywordMatches(normalized: string, keyword: string) {
    Contains(normalized, ToLower(keyword)) || Contains(ToLower(keyword), normalized)
  }

  /** Some keyword of the list matches the normalised category. */
  predicate AnyKeywordMatches(normalized: string, keywords: seq<string>)
    decreases |keywords|
  {
    keywords != [] && (KeywordMatches(normalized, keywords[0]) || AnyKeywordMatches(normalized, keywords[1..]))
  }

  /** The category selects the group: it matches one of the group's keywords. */
  predicate GroupMatches(category: string, g: CategoryGroup) {
    AnyKeywordMatches(Normalize(category), g.keywords)
  }

  /** The names of the groups a normalised category selects. */
  function GroupHits(normalized: string, groups: seq<CategoryGroup>): set<string>
    decreases |groups|
  {
    if groups == [] then {}
    else
      var last := groups[|groups| - 1];
      GroupHits(normalized, groups[..|groups| - 1])
        + (if AnyKeywordMatches(normalized, last.keywords) then {last.name} else {})
  }

  /** The names of the groups some category selects. */
  function AllHits(categories: seq<string>, groups: seq<CategoryGroup>): set<string>
    decreases |categories|
  {
    if categories == [] then {}
    else AllHits(categories[..|categories| - 1], groups) + GroupHits(Normalize(categories[|categories| - 1]), groups)
  }

  class CategoryMapper {
    var groups: seq<CategoryGroup>

    /** `NewCategoryMapper`: the predefined groups. */
    constructor()
      ensures groups == DefaultGroups
    {
      groups := DefaultGroups;
    }

    /** `NewCategoryMapperWithGroups`. */
    constructor WithGroups(groups: seq<CategoryGroup>)
      ensures this.groups == groups
    {
      this.groups := groups;
    }

    /** `AddGroup`: the group is appended and considered by later mappings. */
    method AddGroup(group: CategoryGroup)
      modifies this
      ensures groups == old(groups) + [group]
    {
      groups := groups + [group];
    }

    /** Whether one category selects one group: the keyword loop, which stops at the first match. */
    method MatchesGroup(normalized: string, g: CategoryGroup) returns (hit: bool)
      ensures hit == AnyKeywordMatches(normalized, g.keywords)
    {
      var j := 0;
      while j < |g.keywords|
        invariant 0 <= j <= |g.keywords|
        invariant AnyKeywordMatches(normalized, g.keywords) == AnyKeywordMatches(normalized, g.keywords[j..])
      {
        var keyword := ToLower(g.keywords[j]);
        if Contains(normalized, keyword) || Contains(keyword, normalized) {
          return true;
        }
        assert g.keywords[j..][1..] == g.keywords[j + 1..];
        j := j + 1;
      }
      return false;
    }

    /** The group loop for one category: the names of the groups it selects. */
    method CategoryHits(normalized: string) returns (hits: set<string>)
      ensures hits == GroupHits(normalized, groups)
    {
      hits := {};
      var i := 0;
      while i < |groups|
        invariant 0 <= i <= |groups|
        invariant hits == GroupHits(normalized, groups[..i])
      {
        var hit := MatchesGroup(normalized, groups[i]);
        if hit {
          hits := hits + {groups[i].name};
        }
        assert groups[..i + 1][..i] == groups[..i];
        i := i + 1;
      }
      assert groups[..i] == groups;
    }

    /**
     * `MapCategories`: the names of the groups the categories select, each once,
     * in no particular order (the code reads them off a Go map).
     */
    method MapCategories(categories: seq<string>) returns (result: seq<string>)
      ensures categories == [] ==> result == []
      ensures forall i, j :: 0 <= i < j < |result| ==> result[i] != result[j]
      ensures (set x | x in result) == AllHits(categories, groups)
    {
      if |categories| == 0 {
        return [];
      }
      var matched: set<string> := {};
      var k := 0;
      while k < |categories|
        invariant 0 <= k <= |categories|
        invariant matched == AllHits(categories[..k], groups)
      {
        var hits := CategoryHits(Normalize(categories[k]));
        matched := matched + hits;
        assert categories[..k + 1][..k] == categories[..k];
        k := k + 1;
      }
      assert categories[..k] == categories;
      result := Listed(matched);
    }
  }

  /** The names of a set, each once, in an order the set does not fix. */
  method Listed(names: set<string>) returns (result: seq<string>)
    ensures forall i, j :: 0 <= i < j < |result| ==> result[i] != result[j]
    ensures (set x | x in result) == names
  {
    result := [];
    var rest := names;
    while rest != {}
      invariant (set x | x in result) + rest == names
      invariant forall x :: x in result ==> x !in rest
      invariant forall i, j :: 0 <= i < j < |result| ==> result[i] != result[j]
      decreases |rest|
    {
      var name :| name in rest;
      result := result + [name];
      rest := rest - {name};
    }
  }

  // ------------------------------------------------------------ properties of the mapping

  /** A group is selected exactly when one of its keywords matches the category. */
  lemma {:induction false} AnyKeywordMatchesIff(normalized: string, keywords: seq<string>)
    ensures AnyKeywordMatches(normalized, keywords) <==>
              exists j :: 0 <= j < |keywords| && KeywordMatches(normalized, keywords[j])
    decreases |keywords|
  {
    if keywords != [] {
      AnyKeywordMatchesIff(normalized, keywords[1..]);
      if exists j :: 0 <= j < |keywords[1..]| && KeywordMatches(normalized, keywords[1..][j]) {
        var j :| 0 <= j < |keywords[1..]| && KeywordMatches(normalized, keywords[1..][j]);
        assert keywords[j + 1] == keywords[1..][j];
      }
      if exists j :: 0 <= j < |keywords| && KeywordMatches(normalized, keywords[j]) {
        var j :| 0 <= j < |keywords| && KeywordMatches(normalized, keywords[j]);
        if j > 0 {
          assert keywords[1..][j - 1] == keywords[j];
        }
      }
    }
  }

  lemma {:induction false} GroupHitsIff(normalized: string, groups: seq<CategoryGroup>, name: string)
    ensures name in GroupHits(normalized, groups) <==>
              exists i :: 0 <= i < |groups| && AnyKeywordMatches(normalized, groups[i].keywords) && groups[i].name == name
    decreases |groups|
  {
    if groups != [] {
      var front := groups[..|groups| - 1];
      var last := groups[|groups| - 1];
      GroupHitsIff(normalized, front, name);
      if name in GroupHits(normalized, groups) {
        if name in GroupHits(normalized, front) {
          var i :| 0 <= i < |front| && AnyKeywordMatches(normalized, front[i].keywords) && front[i].name == name;
          assert groups[i] == front[i];
        } else {
          assert AnyKeywordMatches(normalized, groups[|groups| - 1].keywords) && groups[|groups| - 1].name == name;
        }
      }
      if exists i :: 0 <= i < |groups| && AnyKeywordMatches(normalized, groups[i].keywords) && groups[i].name == name {
        var i :| 0 <= i < |groups| && AnyKeywordMatches(normalized, groups[i].keywords) && groups[i].name == name;
        if i < |front| {
          assert front[i] == groups[i];
        } else {
          assert groups[i] == last;
        }
      }
    }
  }

  /** Some group of the list that the category selects is named `name`. */
  predicate Selects(category: string, groups: seq<CategoryGroup>, name: string) {
    exists i :: 0 <= i < |groups| && GroupMatches(category, groups[i]) && groups[i].name == name
  }

  lemma SelectsIff(category: string, groups: seq<CategoryGroup>, name: string)
    ensures name in GroupHits(Normalize(category), groups) <==> Selects(category, groups, name)
  {
    GroupHitsIff(Normalize(category), groups, name);
  }

  /** A name in the result comes from a group some category selects. */
  lemma {:induction false} AllHitsSound(categories: seq<string>, groups: seq<CategoryGroup>, name: string)
    requires name in AllHits(categories, groups)
    ensures exists k :: 0 <= k < |categories| && Selects(categories[k], groups, name)
    decreases |categories|
  {
    var n := |categories| - 1;
    var front := categories[..n];
    if name in AllHits(front, groups) {
      AllHitsSound(front, groups, name);
      var k :| 0 <= k < |front| && Selects(front[k], groups, name);
      assert categories[k] == front[k];
    } else {
      SelectsIff(categories[n], groups, name);
    }
  }

  /** A group that category `k` selects puts its name in the result. */
  lemma {:induction false} AllHitsComplete(categories: seq<string>, groups: seq<CategoryGroup>, name: string, k: int)
    requires 0 <= k < |categories| && Selects(categories[k], groups, name)
    ensures name in AllHits(categories, groups)
    decreases |categories|
  {
    var n := |categories| - 1;
    if k == n {
      SelectsIff(categories[n], groups, name);
    } else {
      assert categories[..n][k] == categories[k];
      AllHitsComplete(categories[..n], groups, name, k);
    }
  }

  /**
   * The mapping's result, as a set, is exactly the names of the groups that at
   * least one category matches.
   */
  lemma AllHitsIff(categories: seq<string>, groups: seq<CategoryGroup>, name: string)
    ensures name in AllHits(categories, groups) <==>
              exists k :: 0 <= k < |categories| && Selects(categories[k], groups, name)
  {
    if name in AllHits(categories, groups) {
      AllHitsSound(categories, groups, name);
    }
    if exists k :: 0 <= k < |categories| && Selects(categories[k], groups, name) {
      var k :| 0 <= k < |categories| && Selects(categories[k], groups, name);
      AllHitsComplete(categories, groups, name, k);
    }
  }

  /** Matching ignores letter case and surrounding white space in the category. */
  lemma MatchingIgnoresCaseAndSpace(category: string, g: CategoryGroup)
    ensures GroupMatches(ToLower(category), g) <==> GroupMatches(category, g)
    ensures GroupMatches(TrimSpace(category), g) <==> GroupMatches(category, g)
  {
    TrimSpaceToLower(category);
    ToLowerIdempotent(TrimSpace(category));
    assert Normalize(ToLower(category)) == Normalize(category);
    TrimIdempotent(category, Whitespace);
    assert Normalize(TrimSpace(category)) == Normalize(category);
  }

  /** A blank category is contained in every keyword, so it selects every group that has one. */
  lemma BlankMatchesEveryGroup(category: string, g: CategoryGroup)
    requires forall k :: 0 <= k < |category| ==> category[k] in Whitespace
    ensures GroupMatches(category, g) <==> |g.keywords| > 0
  {
    TrimSpaceEmptyIff(category);
    assert Normalize(category) == "";
    if |g.keywords| > 0 {
      ContainsEmpty(ToLower(g.keywords[0]));
      assert KeywordMatches(Normalize(category), g.keywords[0]);
    }
  }

  lemma {:induction false} GroupHitsAppend(normalized: string, groups: seq<CategoryGroup>, g: CategoryGroup)
    ensures GroupHits(normalized, groups + [g])
            == GroupHits(normalized, groups) + (if AnyKeywordMatches(normalized, g.keywords) then {g.name} else {})
  {
    assert (groups + [g])[..|groups|] == groups;
  }

  /** Some category of the list selects the group. */
  predicate SomeSelects(categories: seq<string>, g: CategoryGroup)
    decreases |categories|
  {
    categories != [] && (SomeSelects(categories[..|categories| - 1], g) || GroupMatches(categories[|categories| - 1], g))
  }

  lemma {:induction false} SomeSelectsIff(categories: seq<string>, g: CategoryGroup)
    ensures SomeSelects(categories, g) <==> exists k :: 0 <= k < |categories| && GroupMatches(categories[k], g)
    decreases |categories|
  {
    if categories != [] {
      var front := categories[..|categories| - 1];
      var last := categories[|categories| - 1];
      SomeSelectsIff(front, g);
      if SomeSelects(categories, g) {
        if SomeSelects(front, g) {
          var k :| 0 <= k < |front| && GroupMatches(front[k], g);
          assert categories[k] == front[k];
        } else {
          assert GroupMatches(categories[|categories| - 1], g);
        }
      }
      if exists k :: 0 <= k < |categories| && GroupMatches(categories[k], g) {
        var k :| 0 <= k < |categories| && GroupMatches(categories[k], g);
        if k < |front| {
          assert front[k] == categories[k];
          assert SomeSelects(front, g);
        } else {
          assert k == |categories| - 1;
        }
      }
    }
  }

  /** After `AddGroup`, the new group's name is reported exactly when some category selects it. */
  lemma {:induction false} AddedGroupConsidered(categories: seq<string>, groups: seq<CategoryGroup>, g: CategoryGroup)
    ensures AllHits(categories, groups + [g])
            == AllHits(categories, groups) + (if SomeSelects(categories, g) then {g.name} else {})
    decreases |categories|
  {
    if categories != [] {
      var front := categories[..|categories| - 1];
      AddedGroupConsidered(front, groups, g);
      GroupHitsAppend(Normalize(categories[|categories| - 1]), groups, g);
    }
  }
}
