/**
 * Semantic tags of the pre-tool-use decision engine: a table from tag
 * names to regular-expression patterns, the built-in table, the merge of
 * custom patterns over it, and the `TagMatcher` that answers "does this
 * command match one of these tags" and "which tags does it match".
 *
 * The regular-expression engine is not modelled. `Searcher` stands for
 * `re.compile(pattern, re.IGNORECASE).search(text) is not None` and
 * `Compiles` for "`re.compile` accepts the pattern"; every property below
 * holds whatever these two functions are.
 */
module TagMatching {
  import opened Wrappers
  import opened Json
  import opened Strings

  type Searcher = (string, string) -> bool
  type Compiles = string -> bool

  /** One entry of the tag dictionary: a tag name and its patterns. */
  datatype TagEntry = TagEntry(tag: string, patterns: seq<string>)

  /** A tag dictionary, in insertion order. */
  type Table = seq<TagEntry>

  function TagsOf(t: Table): (r: seq<string>)
    ensures |r| == |t| && forall i :: 0 <= i < |t| ==> r[i] == t[i].tag
  {
    seq(|t|, i requires 0 <= i < |t| => t[i].tag)
  }

  /** Dictionary keys are distinct. */
  predicate UniqueTags(t: Table)
  {
    NoDuplicates(TagsOf(t))
  }

  predicate HasTag(t: Table, tag: string)
  {
    tag in TagsOf(t)
  }

  lemma TagsOfCons(t: Table)
    requires t != []
    ensures TagsOf(t) == [t[0].tag] + TagsOf(t[1..])
  {
  }

  /** `tag in table` and `table[tag]`. */
  function Find(t: Table, tag: string): (r: Option<seq<string>>)
    ensures r.Some? <==> HasTag(t, tag)
    ensures r.Some? ==> TagEntry(tag, r.value) in t
  {
    if t == [] then None
    else if t[0].tag == tag then Some(t[0].patterns)
    else Find(t[1..], tag)
  }

  /** The built-in tag dictionary. */
  const BuiltInTagPatterns: Table := [
    // Package management
    TagEntry("package:install", [
      @"npm\s+install", @"pip\s+install", @"poetry\s+add", @"yarn\s+add",
      @"uv\s+pip\s+install", @"brew\s+install", @"apt\s+install", @"yum\s+install"]),
    TagEntry("package:uninstall", [
      @"npm\s+(uninstall|remove)", @"pip\s+uninstall", @"poetry\s+remove", @"brew\s+uninstall"]),
    // Git operations
    TagEntry("git:destructive", [
      @"git\s+reset\s+--hard", @"git\s+clean\s+-[fd]", @"git\s+rebase\s+--abort",
      @"git\s+checkout\s+--force"]),
    TagEntry("git:history", [
      @"git\s+rebase\s+-i", @"git\s+commit\s+--amend", @"git\s+cherry-pick",
      @"git\s+reflog\s+expire"]),
    // System operations
    TagEntry("system:dangerous", [
      @"rm\s+-rf\s+/", @"sudo\s+rm\s+-rf", @"chmod\s+777", @"chown\s+.*\s+/",
      @"mkfs\.", @"dd\s+if="]),
    TagEntry("system:admin", [
      @"sudo\s+", @"doas\s+", @"su\s+-", @"systemctl\s+(stop|restart|disable)"]),
    // File types
    TagEntry("files:secrets", [
      @"\.env(\.|$)", @"id_(rsa|ed25519)", @".*\.key$", @".*password.*",
      @".*secret.*", @"\.ssh/", @"credentials"]),
    TagEntry("files:config", [
      @"package\.json$", @"pyproject\.toml$", @"Cargo\.toml$", @"requirements\.txt$",
      @"poetry\.lock$"])
  ]

  lemma BuiltInTagsUnique()
    ensures UniqueTags(BuiltInTagPatterns)
    ensures |BuiltInTagPatterns| == 8
  {
    var t := TagsOf(BuiltInTagPatterns);
    assert t == ["package:install", "package:uninstall", "git:destructive", "git:history",
                 "system:dangerous", "system:admin", "files:secrets", "files:config"];
  }

  /** `table[e.tag] = e.patterns` on a dict: an existing key keeps its place, a new one goes last. */
  function Put(t: Table, e: TagEntry): Table
  {
    if t == [] then [e]
    else if t[0].tag == e.tag then [e] + t[1..]
    else [t[0]] + Put(t[1..], e)
  }

  lemma {:induction false} PutTags(t: Table, e: TagEntry)
    ensures TagsOf(Put(t, e)) == if HasTag(t, e.tag) then TagsOf(t) else TagsOf(t) + [e.tag]
  {
    if t != [] {
      TagsOfCons(t);
      if t[0].tag == e.tag {
        TagsOfCons([e] + t[1..]);
        assert ([e] + t[1..])[1..] == t[1..];
      } else {
        PutTags(t[1..], e);
        var rest := Put(t[1..], e);
        TagsOfCons([t[0]] + rest);
        assert ([t[0]] + rest)[1..] == rest;
      }
    }
  }

  lemma {:induction false} PutKeeps(t: Table, e: TagEntry)
    ensures |Put(t, e)| >= |t|
    ensures forall i :: 0 <= i < |t| && t[i].tag != e.tag ==> Put(t, e)[i] == t[i]
  {
    if t != [] {
      if t[0].tag != e.tag {
        PutKeeps(t[1..], e);
        var rest := Put(t[1..], e);
        assert Put(t, e) == [t[0]] + rest;
        assert forall i :: 1 <= i < |t| ==> t[i] == t[1..][i - 1] && Put(t, e)[i] == rest[i - 1];
      } else {
        assert forall i :: 1 <= i < |t| ==> Put(t, e)[i] == t[i];
      }
    }
  }

  /** Assigning a new key appends its entry. */
  lemma {:induction false} PutAppends(t: Table, e: TagEntry)
    requires !HasTag(t, e.tag)
    ensures Put(t, e) == t + [e]
  {
    if t != [] {
      TagsOfCons(t);
      PutAppends(t[1..], e);
      assert t == [t[0]] + t[1..];
    }
  }

  lemma {:induction false} PutFind(t: Table, e: TagEntry, x: string)
    ensures Find(Put(t, e), x) == if x == e.tag then Some(e.patterns) else Find(t, x)
  {
    if t != [] && t[0].tag != e.tag {
      PutFind(t[1..], e, x);
    }
  }

  lemma PutUnique(t: Table, e: TagEntry)
    ensures UniqueTags(t) ==> UniqueTags(Put(t, e))
  {
    PutTags(t, e);
    var s := TagsOf(t);
    if UniqueTags(t) && !HasTag(t, e.tag) {
      assert forall i :: 0 <= i < |s| ==> (s + [e.tag])[i] == s[i];
    }
  }

  /**
   * `table.update(custom)`: each custom entry, in order, replaces the entry
   * of the same tag in place or is appended.
   */
  function Update(t: Table, custom: Table): Table
    decreases |custom|
  {
    if custom == [] then t else Update(Put(t, custom[0]), custom[1..])
  }

  lemma UniqueTagsTail(t: Table)
    requires t != [] && UniqueTags(t)
    ensures UniqueTags(t[1..]) && !HasTag(t[1..], t[0].tag)
  {
    TagsOfCons(t);
  }

  /** After `table.update(custom)` the old tags keep their places and each tag appears once. */
  lemma {:induction false} UpdateTags(t: Table, custom: Table)
    ensures |Update(t, custom)| >= |t|
    ensures TagsOf(Update(t, custom))[..|t|] == TagsOf(t)
    ensures UniqueTags(t) ==> UniqueTags(Update(t, custom))
    decreases |custom|
  {
    if custom != [] {
      var e, rest := custom[0], custom[1..];
      var put := Put(t, e);
      PutTags(t, e);
      PutUnique(t, e);
      assert TagsOf(put)[..|t|] == TagsOf(t);
      UpdateTags(put, rest);
      var r := Update(put, rest);
      assert TagsOf(r)[..|t|] == TagsOf(r)[..|put|][..|t|];
    }
  }

  /** The tags after `table.update(custom)` are the old tags and the custom ones. */
  lemma {:induction false} UpdateHasTag(t: Table, custom: Table, x: string)
    ensures HasTag(Update(t, custom), x) <==> HasTag(t, x) || HasTag(custom, x)
    decreases |custom|
  {
    if custom != [] {
      var e, rest := custom[0], custom[1..];
      TagsOfCons(custom);
      PutTags(t, e);
      UpdateHasTag(Put(t, e), rest, x);
    }
  }

  /** `table.update(custom)` leaves the entries of tags that `custom` lacks as they were. */
  lemma {:induction false} UpdateKeeps(t: Table, custom: Table)
    ensures |Update(t, custom)| >= |t|
    ensures forall i :: 0 <= i < |t| && !HasTag(custom, t[i].tag) ==> Update(t, custom)[i] == t[i]
    decreases |custom|
  {
    if custom != [] {
      var e, rest := custom[0], custom[1..];
      TagsOfCons(custom);
      PutKeeps(t, e);
      UpdateKeeps(Put(t, e), rest);
    }
  }

  /** After `table.update(custom)` a custom tag has the custom patterns, any other tag its old ones. */
  lemma {:induction false} UpdateFind(t: Table, custom: Table, x: string)
    requires UniqueTags(custom)
    ensures Find(Update(t, custom), x) == if HasTag(custom, x) then Find(custom, x) else Find(t, x)
    decreases |custom|
  {
    if custom != [] {
      var e, rest := custom[0], custom[1..];
      UniqueTagsTail(custom);
      TagsOfCons(custom);
      PutFind(t, e, x);
      UpdateFind(Put(t, e), rest, x);
    }
  }

  /** Some pattern of the list searches the text. */
  predicate AnySearches(patterns: seq<string>, text: string, search: Searcher)
  {
    exists k :: 0 <= k < |patterns| && search(patterns[k], text)
  }

  /** A tag value hashes: `tag in dict` raises TypeError for a list or a dict. */
  predicate Hashable(j: Json)
  {
    !j.JList? && !j.JObj?
  }

  /** The tag is a known tag name and one of its patterns searches the text. */
  predicate KnownMatch(table: Table, tag: Json, text: string, search: Searcher)
  {
    tag.JStr? && Find(table, tag.s).Some? && AnySearches(Find(table, tag.s).value, text, search)
  }

  /** The loop of `matches_any` over the tags it iterates. */
  function TagItemsMatch(text: string, tags: seq<Json>, table: Table, search: Searcher): (r: Result<bool, PyError>)
    ensures (forall k :: 0 <= k < |tags| ==> Hashable(tags[k])) ==>
      r == Success(exists k :: 0 <= k < |tags| && KnownMatch(table, tags[k], text, search))
    ensures r.Failure? ==> r.error == TypeError
  {
    if tags == [] then Success(false)
    else if !Hashable(tags[0]) then Failure(TypeError)
    else if KnownMatch(table, tags[0], text, search) then Success(true)
    else
      var rest := TagItemsMatch(text, tags[1..], table, search);
      assert forall k :: 1 <= k < |tags| ==> tags[k] == tags[1..][k - 1];
      rest
  }

  /**
   * The loop raises exactly when it reaches a list or dict tag, that is, when one comes
   * before any matching tag; when it does not raise, its answer is whether some tag matches.
   */
  lemma {:induction false} TagItemsMatchOutcome(text: string, tags: seq<Json>, table: Table, search: Searcher)
    ensures TagItemsMatch(text, tags, table, search).Failure? <==>
      exists k :: 0 <= k < |tags| && !Hashable(tags[k])
        && forall j :: 0 <= j < k ==> Hashable(tags[j]) && !KnownMatch(table, tags[j], text, search)
    ensures TagItemsMatch(text, tags, table, search).Success? ==>
      (TagItemsMatch(text, tags, table, search).value <==> exists k :: 0 <= k < |tags| && KnownMatch(table, tags[k], text, search))
  {
    if tags != [] {
      TagItemsMatchOutcome(text, tags[1..], table, search);
      assert forall k :: 1 <= k < |tags| ==> tags[k] == tags[1..][k - 1];
      if Hashable(tags[0]) && !KnownMatch(table, tags[0], text, search) {
        if TagItemsMatch(text, tags, table, search).Failure? {
          var k :| 0 <= k < |tags[1..]| && !Hashable(tags[1..][k])
            && forall j :: 0 <= j < k ==> Hashable(tags[1..][j]) && !KnownMatch(table, tags[1..][j], text, search);
          assert forall j :: 0 <= j < k + 1 ==> Hashable(tags[j]) && !KnownMatch(table, tags[j], text, search);
        } else {
          forall k | 0 <= k < |tags| && !Hashable(tags[k])
            ensures exists j :: 0 <= j < k && !(Hashable(tags[j]) && !KnownMatch(table, tags[j], text, search))
          {
            assert k > 0;
            assert !(forall j :: 0 <= j < k - 1 ==> Hashable(tags[1..][j]) && !KnownMatch(table, tags[1..][j], text, search));
            var j :| 0 <= j < k - 1 && !(Hashable(tags[1..][j]) && !KnownMatch(table, tags[1..][j], text, search));
            assert tags[j + 1] == tags[1..][j];
          }
        }
      }
    }
  }

  /** `matches_any(text, tags)`, where `tags` is whatever the rule carries. */
  function TagsMatch(text: string, tags: Json, table: Table, search: Searcher): Result<bool, PyError>
  {
    match Iterate(tags)
    case Failure(e) => Failure(e)
    case Success(items) => TagItemsMatch(text, items, table, search)
  }

  /**
   * `get_matching_tags(text)`: the tags, in table order, that have at least
   * one pattern that searches the text.
   */
  function MatchingTags(table: Table, text: string, search: Searcher): seq<string>
  {
    if table == [] then []
    else (if AnySearches(table[0].patterns, text, search) then [table[0].tag] else [])
         + MatchingTags(table[1..], text, search)
  }

  /** A tag is listed exactly when one of its patterns searches the text. */
  lemma {:induction false} MatchingTagsMembers(table: Table, text: string, search: Searcher)
    ensures forall x :: x in MatchingTags(table, text, search) <==>
      exists i :: 0 <= i < |table| && table[i].tag == x && AnySearches(table[i].patterns, text, search)
  {
    if table != [] {
      MatchingTagsMembers(table[1..], text, search);
      assert forall i :: 1 <= i < |table| ==> table[i] == table[1..][i - 1];
    }
  }

  /** The list follows table order, so a table with unique tags gives a list without duplicates. */
  lemma {:induction false} MatchingTagsOrder(table: Table, text: string, search: Searcher)
    ensures Subsequence(MatchingTags(table, text, search), TagsOf(table))
    ensures UniqueTags(table) ==> NoDuplicates(MatchingTags(table, text, search))
  {
    if table != [] {
      var rest := MatchingTags(table[1..], text, search);
      MatchingTagsOrder(table[1..], text, search);
      TagsOfCons(table);
      if AnySearches(table[0].patterns, text, search) {
        assert MatchingTags(table, text, search) == [table[0].tag] + rest;
        if UniqueTags(table) {
          UniqueTagsTail(table);
          MatchingTagsMembers(table[1..], text, search);
          assert table[0].tag !in rest;
        }
      } else {
        assert MatchingTags(table, text, search) == rest;
        SubsequenceOfLonger(rest, table[0].tag, TagsOf(table[1..]));
      }
    }
  }

  /** Every pattern of every entry is accepted by `re.compile`. */
  predicate AllCompile(t: Table, compiles: Compiles)
  {
    forall i, k :: 0 <= i < |t| && 0 <= k < |t[i].patterns| ==> compiles(t[i].patterns[k])
  }

  class TagMatcher {
    /** The tag dictionary; its patterns are what the source keeps compiled. */
    var patterns: Table
    /** Searching with a compiled, case-insensitive pattern. */
    const search: Searcher

    ghost predicate Valid()
      reads this
    {
      UniqueTags(patterns)
    }

    /** Copies the built-in dictionary, then updates it with the custom one. */
    constructor (builtIn: Table, custom: Table, search: Searcher)
      requires UniqueTags(builtIn) && UniqueTags(custom)
      ensures Valid()
      ensures patterns == Update(builtIn, custom) && this.search == search
    {
      this.search := search;
      patterns := builtIn;
      new;
      if custom != [] {
        patterns := Update(patterns, custom);
      }
      UpdateTags(builtIn, custom);
    }

    /** `matches_any`: does some listed, known tag have a pattern that searches the text? */
    method MatchesAny(text: string, tags: Json) returns (r: Result<bool, PyError>)
      ensures r == TagsMatch(text, tags, patterns, search)
      ensures tags == JList([]) ==> r == Success(false)
    {
      var it := Iterate(tags);
      if it.Failure? {
        return Failure(it.error);
      }
      var items := it.value;
      var i := 0;
      while i < |items|
        invariant 0 <= i <= |items|
        invariant TagItemsMatch(text, items, patterns, search) == TagItemsMatch(text, items[i..], patterns, search)
      {
        var tag := items[i];
        assert items[i..][0] == tag && items[i..][1..] == items[i + 1..];
        if tag.JList? || tag.JObj? {
          return Failure(TypeError);
        }
        if tag.JStr? {
          var found := Find(patterns, tag.s);
          if found.Some? {
            var ps := found.value;
            var j := 0;
            while j < |ps|
              invariant 0 <= j <= |ps|
              invariant forall k :: 0 <= k < j ==> !search(ps[k], text)
            {
              if search(ps[j], text) {
                return Success(true);
              }
              j := j + 1;
            }
          }
        }
        i := i + 1;
      }
      return Success(false);
    }

    /** `get_matching_tags`: each tag once, in table order, when one of its patterns searches the text. */
    method GetMatchingTags(text: string) returns (matching: seq<string>)
      requires Valid()
      ensures matching == MatchingTags(patterns, text, search)
      ensures NoDuplicates(matching)
      ensures forall x :: x in matching <==>
        exists i :: 0 <= i < |patterns| && patterns[i].tag == x && AnySearches(patterns[i].patterns, text, search)
    {
      var table := patterns;
      matching := [];
      var i := 0;
      while i < |table|
        invariant 0 <= i <= |table|
        invariant matching + MatchingTags(table[i..], text, search) == MatchingTags(table, text, search)
      {
        var entry := table[i];
        assert table[i..][0] == entry && table[i..][1..] == table[i + 1..];
        ghost var before := matching;
        var j := 0;
        while j < |entry.patterns|
          invariant 0 <= j <= |entry.patterns|
          invariant matching == before
          invariant forall k :: 0 <= k < j ==> !search(entry.patterns[k], text)
        {
          if search(entry.patterns[j], text) {
            matching := matching + [entry.tag];
            break;
          }
          j := j + 1;
        }
        assert matching == before + if AnySearches(entry.patterns, text, search) then [entry.tag] else [];
        i := i + 1;
      }
      assert table[i..] == [];
      MatchingTagsMembers(table, text, search);
      MatchingTagsOrder(table, text, search);
    }
  }

  /** `TagMatcher(built_in, custom)`, which raises `re.error` when a pattern does not compile. */
  method NewTagMatcher(builtIn: Table, custom: Table, search: Searcher, compiles: Compiles)
    returns (r: Result<TagMatcher, PyError>)
    requires UniqueTags(builtIn) && UniqueTags(custom)
    ensures r.Failure? <==> !AllCompile(Update(builtIn, custom), compiles)
    ensures r.Failure? ==> r.error == PatternError
    ensures r.Success? ==> fresh(r.value) && r.value.Valid()
    ensures r.Success? ==> r.value.patterns == Update(builtIn, custom) && r.value.search == search
  {
    var m := new TagMatcher(builtIn, custom, search);
    if !AllCompile(m.patterns, compiles) {
      return Failure(PatternError);
    }
    return Success(m);
  }
}
