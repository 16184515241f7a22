/** The listing behind `MainWindow.update_lists`: the "*.jpg" glob pattern over the
    save location, then the split of the matches by capture suffix. */
module Listing {
  import opened Paths

  /** The entries of `s` that `keep` accepts, in their order in `s`. */
  function Filter(s: seq<string>, keep: string -> bool): seq<string> {
    if s == [] then []
    else Filter(s[..|s| - 1], keep) + (if keep(s[|s| - 1]) then [s[|s| - 1]] else [])
  }

  /** A name the glob of the save location returns: it ends in ".jpg" and, because
      `*` does not match a leading dot, it is not hidden. */
  predicate MatchesJpgGlob(name: string) {
    EndsWith(name, JpgExtension) && Visible(name)
  }

  /** A name that does not start with a dot, so that the glob can match it. */
  predicate Visible(name: string) {
    !(|name| > 0 && name[0] == '.')
  }

  /** The `if` branch of the loop. */
  predicate IsCroppedName(name: string) {
    EndsWith(name, CroppedSuffix)
  }

  /** The `elif` branch of the loop: reached only by names that are not
      cropped names. */
  predicate IsFullName(name: string) {
    !EndsWith(name, CroppedSuffix) && EndsWith(name, FullSuffix)
  }

  /** The glob's matches, in the order the directory lists them. */
  function Glob(entries: seq<string>): seq<string> {
    Filter(entries, MatchesJpgGlob)
  }

  /** The rows of the cropped-frame list after a listing of `entries`. */
  function CroppedNames(entries: seq<string>): seq<string> {
    Filter(Glob(entries), IsCroppedName)
  }

  /** The rows of the full-frame list after a listing of `entries`. */
  function FullNames(entries: seq<string>): seq<string> {
    Filter(Glob(entries), IsFullName)
  }

  lemma FilterAppend(s: seq<string>, x: string, keep: string -> bool)
    ensures Filter(s + [x], keep) == Filter(s, keep) + (if keep(x) then [x] else [])
  {
    assert (s + [x])[..|s|] == s;
  }

  /** A name survives the filter exactly when it is in `s` and accepted. */
  lemma {:induction false} FilterMembership(s: seq<string>, keep: string -> bool, x: string)
    ensures x in Filter(s, keep) <==> x in s && keep(x)
  {
    if s != [] {
      var init := s[..|s| - 1];
      FilterMembership(init, keep, x);
      assert s == init + [s[|s| - 1]];
    }
  }

  /** Filtering keeps the order: the filter of a concatenation is the
      concatenation of the filters. */
  lemma {:induction false} FilterConcat(a: seq<string>, b: seq<string>, keep: string -> bool)
    ensures Filter(a + b, keep) == Filter(a, keep) + Filter(b, keep)
  {
    if b == [] {
      assert a + b == a;
    } else {
      var init := b[..|b| - 1];
      var last := b[|b| - 1];
      assert b == init + [last];
      assert a + b == (a + init) + [last];
      FilterConcat(a, init, keep);
      FilterAppend(a + init, last, keep);
      FilterAppend(init, last, keep);
    }
  }

  /** Filtering a second time with the same test changes nothing. */
  lemma {:induction false} FilterIdempotent(s: seq<string>, keep: string -> bool)
    ensures Filter(Filter(s, keep), keep) == Filter(s, keep)
  {
    if s != [] {
      var init := s[..|s| - 1];
      var last := s[|s| - 1];
      FilterIdempotent(init, keep);
      if keep(last) {
        assert Filter(s, keep) == Filter(init, keep) + [last];
        FilterAppend(Filter(init, keep), last, keep);
      } else {
        assert Filter(s, keep) == Filter(init, keep) + [] == Filter(init, keep);
      }
    }
  }

  /** The cropped list holds exactly the listed, visible `.jpg` names ending
      in "_cropped.jpg"; the full list exactly those ending in "_full.jpg";
      no other name is in either, and no name is in both. */
  lemma ListsPartitionBySuffix(entries: seq<string>, name: string)
    ensures name in CroppedNames(entries) <==>
            name in entries && MatchesJpgGlob(name) && EndsWith(name, CroppedSuffix)
    ensures name in FullNames(entries) <==>
            name in entries && MatchesJpgGlob(name) && EndsWith(name, FullSuffix)
    ensures !(name in CroppedNames(entries) && name in FullNames(entries))
  {
    FilterMembership(entries, MatchesJpgGlob, name);
    FilterMembership(Glob(entries), IsCroppedName, name);
    FilterMembership(Glob(entries), IsFullName, name);
    SuffixesExclusive(name);
  }

  /** Each list follows the order of the directory listing: the entries
      listed first come first. */
  lemma ListsFollowListingOrder(a: seq<string>, b: seq<string>)
    ensures CroppedNames(a + b) == CroppedNames(a) + CroppedNames(b)
    ensures FullNames(a + b) == FullNames(a) + FullNames(b)
  {
    FilterConcat(a, b, MatchesJpgGlob);
    FilterConcat(Glob(a), Glob(b), IsCroppedName);
    FilterConcat(Glob(a), Glob(b), IsFullName);
  }

  /** A directory holding only the names of one list lists them back
      unchanged, in the same order. */
  lemma ListingIdempotent(entries: seq<string>)
    ensures CroppedNames(CroppedNames(entries)) == CroppedNames(entries)
    ensures FullNames(FullNames(entries)) == FullNames(entries)
  {
    var g := Glob(entries);
    FilterIdempotent(entries, MatchesJpgGlob);
    forall n | n in CroppedNames(entries) ensures MatchesJpgGlob(n) {
      FilterMembership(g, IsCroppedName, n);
      FilterMembership(entries, MatchesJpgGlob, n);
    }
    forall n | n in FullNames(entries) ensures MatchesJpgGlob(n) {
      FilterMembership(g, IsFullName, n);
      FilterMembership(entries, MatchesJpgGlob, n);
    }
    FilterAllKept(CroppedNames(entries), MatchesJpgGlob);
    FilterAllKept(FullNames(entries), MatchesJpgGlob);
    FilterIdempotent(g, IsCroppedName);
    FilterIdempotent(g, IsFullName);
  }

  lemma {:induction false} FilterAllKept(s: seq<string>, keep: string -> bool)
    requires forall n | n in s :: keep(n)
    ensures Filter(s, keep) == s
  {
    if s != [] {
      var init := s[..|s| - 1];
      FilterAllKept(init, keep);
      assert s == init + [s[|s| - 1]];
    }
  }

  /** The directory entries of `names` saved in this order: for each, its
      full file then its cropped file. */
  function SavedPairs(names: seq<string>): seq<string> {
    if names == [] then []
    else SavedPairs(names[..|names| - 1]) + [FullName(names[|names| - 1]), CroppedName(names[|names| - 1])]
  }

  /** The two files of one visible name list as one cropped and one full name. */
  lemma PairListed(n: string)
    requires Visible(n)
    ensures CroppedNames([FullName(n), CroppedName(n)]) == [CroppedName(n)]
    ensures FullNames([FullName(n), CroppedName(n)]) == [FullName(n)]
  {
    var full, cropped := FullName(n), CroppedName(n);
    assert full[0] == (if |n| > 0 then n[0] else '_');
    assert cropped[0] == (if |n| > 0 then n[0] else '_');
    CaptureSuffixesAreJpg(full);
    CaptureSuffixesAreJpg(cropped);
    SuffixesExclusive(full);
    assert MatchesJpgGlob(full) && MatchesJpgGlob(cropped);
    assert [] + [full] == [full];
    assert [full] + [cropped] == [full, cropped];
    FilterAppend([], full, MatchesJpgGlob);
    FilterAppend([full], cropped, MatchesJpgGlob);
    assert Glob([full, cropped]) == Filter([full] + [cropped], MatchesJpgGlob) == [full, cropped];
    FilterAppend([], full, IsCroppedName);
    FilterAppend([full], cropped, IsCroppedName);
    FilterAppend([], full, IsFullName);
    FilterAppend([full], cropped, IsFullName);
  }

  /** A directory holding the pairs of N saved captures lists exactly those
      N cropped names and N full names, in save order. */
  lemma {:induction false} SavedPairsListed(names: seq<string>)
    requires forall i | 0 <= i < |names| :: Visible(names[i])
    ensures CroppedNames(SavedPairs(names)) == seq(|names|, i requires 0 <= i < |names| => CroppedName(names[i]))
    ensures FullNames(SavedPairs(names)) == seq(|names|, i requires 0 <= i < |names| => FullName(names[i]))
  {
    if names != [] {
      var init := names[..|names| - 1];
      var n := names[|names| - 1];
      SavedPairsListed(init);
      PairListed(n);
      ListsFollowListingOrder(SavedPairs(init), [FullName(n), CroppedName(n)]);
    }
  }

  /** A filter keeps every copy of an accepted name and no copy of a
      rejected one. */
  lemma {:induction false} FilterCount(s: seq<string>, keep: string -> bool, x: string)
    ensures multiset(Filter(s, keep))[x] == if keep(x) then multiset(s)[x] else 0
  {
    if s != [] {
      var init := s[..|s| - 1];
      var last := s[|s| - 1];
      FilterCount(init, keep, x);
      assert s == init + [last];
      assert multiset(s) == multiset(init) + multiset{last};
      assert Filter(s, keep) == Filter(init, keep) + (if keep(last) then [last] else []);
    }
  }

  /** Two orderings of the same entries filter to the same names. */
  lemma FilterPerm(a: seq<string>, b: seq<string>, keep: string -> bool)
    requires multiset(a) == multiset(b)
    ensures multiset(Filter(a, keep)) == multiset(Filter(b, keep))
  {
    forall x ensures multiset(Filter(a, keep))[x] == multiset(Filter(b, keep))[x] {
      FilterCount(a, keep, x);
      FilterCount(b, keep, x);
    }
  }

  /** Whatever order the directory lists them in, the pairs of N saved
      captures give the N cropped names and the N full names, N entries in each list. */
  lemma SavedPairsListedInAnyOrder(entries: seq<string>, names: seq<string>)
    requires forall i | 0 <= i < |names| :: Visible(names[i])
    requires multiset(entries) == multiset(SavedPairs(names))
    ensures multiset(CroppedNames(entries)) == multiset(seq(|names|, i requires 0 <= i < |names| => CroppedName(names[i])))
    ensures multiset(FullNames(entries)) == multiset(seq(|names|, i requires 0 <= i < |names| => FullName(names[i])))
    ensures |CroppedNames(entries)| == |names| && |FullNames(entries)| == |names|
  {
    var pairs := SavedPairs(names);
    SavedPairsListed(names);
    FilterPerm(entries, pairs, MatchesJpgGlob);
    FilterPerm(Glob(entries), Glob(pairs), IsCroppedName);
    FilterPerm(Glob(entries), Glob(pairs), IsFullName);
    assert |CroppedNames(entries)| == |multiset(CroppedNames(entries))|;
    assert |FullNames(entries)| == |multiset(FullNames(entries))|;
  }
}
