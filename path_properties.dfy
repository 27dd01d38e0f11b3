/** Properties of the path helpers: prefix normalisation and the slug. */
module PathProperties {
  import opened SyncRules

  /** Normalising a prefix twice is normalising it once. */
  lemma EnsureTrailingSlashIdempotent(s: string)
    ensures EnsureTrailingSlash(EnsureTrailingSlash(s)) == EnsureTrailingSlash(s)
  {
  }

  /** A non-empty prefix not ending in a slash gets exactly one slash appended. */
  lemma EnsureTrailingSlashAppends(s: string)
    requires s != "" && s[|s| - 1] != '/'
    ensures EnsureTrailingSlash(s) == s + "/"
  {
  }

  /** Whatever ends in a slash contributes nothing to the last segment of a longer path. */
  lemma {:induction false} LastSegmentAfterSlash(front: string, back: string)
    requires front == "" || front[|front| - 1] == '/'
    ensures LastSegment(front + back) == LastSegment(back)
    decreases |back|
  {
    var all := front + back;
    if back == [] {
      assert all == front;
      assert LastSegment(all) == [];
    } else {
      var last := back[|back| - 1];
      assert all[|all| - 1] == last;
      if last == '/' {
        assert LastSegment(all) == [];
        assert LastSegment(back) == [];
      } else {
        var shorter := back[..|back| - 1];
        assert all[..|all| - 1] == front + shorter;
        assert LastSegment(all) == LastSegment(front + shorter) + [last];
        assert LastSegment(back) == LastSegment(shorter) + [last];
        LastSegmentAfterSlash(front, shorter);
      }
    }
  }

  /** Under a normalised definition prefix, the slug is the last segment of the
      parameter's full name, whether or not the name lies under the prefix. */
  lemma SlugIsLastSegment(name: string, definitionPrefix: string)
    requires definitionPrefix == "" || definitionPrefix[|definitionPrefix| - 1] == '/'
    ensures Slug(name, definitionPrefix) == LastSegment(name)
  {
    if definitionPrefix <= name {
      var rest := name[|definitionPrefix|..];
      assert name == definitionPrefix + rest;
      LastSegmentAfterSlash(definitionPrefix, rest);
    }
  }

  /** The slug of a name with no slash after the prefix is that remainder. */
  lemma SlugOfDirectChild(definitionPrefix: string, leaf: string)
    requires '/' !in leaf
    ensures Slug(definitionPrefix + leaf, definitionPrefix) == leaf
  {
    var name := definitionPrefix + leaf;
    assert definitionPrefix <= name;
    assert name[|definitionPrefix|..] == leaf;
    LastSegmentOfPlain(leaf);
  }

  /** A string without a slash is its own last segment. */
  lemma {:induction false} LastSegmentOfPlain(s: string)
    requires '/' !in s
    ensures LastSegment(s) == s
    decreases |s|
  {
    if s != [] {
      assert s[|s| - 1] in s;
      var front := s[..|s| - 1];
      forall i | 0 <= i < |front|
        ensures front[i] != '/'
      {
        assert front[i] == s[i] && s[i] in s;
      }
      LastSegmentOfPlain(front);
      assert front + [s[|s| - 1]] == s;
    }
  }
}
