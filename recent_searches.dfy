/**
 * The recent-searches history of the front end: at most five patients the
 * doctor looked at, most recent first, one entry per passport, mirrored into
 * browser storage so that it survives a reload.
 */
module RecentSearches {
  import opened Records

  const MaxRecentSearches: nat := 5

  datatype RecentSearch = RecentSearch(passportId: string, patientName: string, searchedAt: string)

  /** What browser storage holds under the history's key, as the mount reads it. */
  datatype Persisted = Parsed(entries: seq<RecentSearch>) | Unparseable

  /** `list.filter(s => s.passportId !== passportId)`. */
  function WithoutPassport(list: seq<RecentSearch>, passportId: string): (r: seq<RecentSearch>)
    ensures forall x :: x in r <==> x in list && x.passportId != passportId
    ensures |r| <= |list|
  {
    if list == [] then []
    else
      var rest := WithoutPassport(list[1..], passportId);
      if list[0].passportId != passportId then [list[0]] + rest else rest
  }

  /** `list.slice(0, n)`. */
  function Take(list: seq<RecentSearch>, n: nat): (r: seq<RecentSearch>)
    ensures |r| == if |list| <= n then |list| else n
    ensures forall k :: 0 <= k < |r| ==> r[k] == list[k]
  {
    if |list| <= n then list else list[..n]
  }

  /** The list `addSearch` computes: the new entry first, then the others without that passport, cut to five. */
  function WithSearch(list: seq<RecentSearch>, passportId: string, patientName: string, searchedAt: string): (r: seq<RecentSearch>)
    ensures 1 <= |r| <= MaxRecentSearches
    ensures r[0] == RecentSearch(passportId, patientName, searchedAt)
  {
    Take([RecentSearch(passportId, patientName, searchedAt)] + WithoutPassport(list, passportId), MaxRecentSearches)
  }

  /** No passport appears twice. */
  ghost predicate UniquePassports(list: seq<RecentSearch>) {
    forall i, j :: 0 <= i < j < |list| ==> list[i].passportId != list[j].passportId
  }

  /** `a` is `b` with some entries deleted, the rest in their order. */
  predicate IsSubsequence(a: seq<RecentSearch>, b: seq<RecentSearch>)
    decreases |b|
  {
    a == [] || (b != [] && if a[0] == b[0] then IsSubsequence(a[1..], b[1..]) else IsSubsequence(a, b[1..]))
  }

  /** A prefix of a subsequence is a subsequence. */
  lemma {:induction false} PrefixOfSubsequence(a: seq<RecentSearch>, b: seq<RecentSearch>, n: nat)
    requires IsSubsequence(a, b) && n <= |a|
    ensures IsSubsequence(a[..n], b)
    decreases |b|
  {
    if n > 0 {
      if a[0] == b[0] {
        PrefixOfSubsequence(a[1..], b[1..], n - 1);
        assert a[..n][1..] == a[1..][..n - 1];
      } else {
        PrefixOfSubsequence(a, b[1..], n);
      }
    }
  }

  /** Filtering keeps the order of what remains. */
  lemma {:induction false} WithoutPassportKeepsOrder(list: seq<RecentSearch>, passportId: string)
    ensures IsSubsequence(WithoutPassport(list, passportId), list)
  {
    if list != [] {
      WithoutPassportKeepsOrder(list[1..], passportId);
      var rest := WithoutPassport(list[1..], passportId);
      if list[0].passportId != passportId {
        assert ([list[0]] + rest)[1..] == rest;
      } else if rest != [] {
        assert rest[0] in rest;
      }
    }
  }

  /** Filtering keeps every entry of another passport as often as the list holds it. */
  lemma {:induction false} WithoutPassportCounts(list: seq<RecentSearch>, passportId: string)
    ensures forall x: RecentSearch :: x.passportId != passportId ==>
      multiset(WithoutPassport(list, passportId))[x] == multiset(list)[x]
  {
    if list != [] {
      WithoutPassportCounts(list[1..], passportId);
      assert list == [list[0]] + list[1..];
    }
  }

  /** Removing a passport that is not there changes nothing. */
  lemma {:induction false} WithoutAbsentPassport(list: seq<RecentSearch>, passportId: string)
    requires forall x :: x in list ==> x.passportId != passportId
    ensures WithoutPassport(list, passportId) == list
  {
    if list != [] {
      WithoutAbsentPassport(list[1..], passportId);
      assert list == [list[0]] + list[1..];
    }
  }

  /** Filtering keeps passports unique. */
  lemma {:induction false} WithoutPassportUnique(list: seq<RecentSearch>, passportId: string)
    requires UniquePassports(list)
    ensures UniquePassports(WithoutPassport(list, passportId))
  {
    if list != [] {
      assert UniquePassports(list[1..]) by {
        forall i, j | 0 <= i < j < |list[1..]| ensures list[1..][i].passportId != list[1..][j].passportId {
          assert list[1..][i] == list[i + 1] && list[1..][j] == list[j + 1];
        }
      }
      WithoutPassportUnique(list[1..], passportId);
      var rest := WithoutPassport(list[1..], passportId);
      if list[0].passportId != passportId {
        forall k | 0 <= k < |rest| ensures rest[k].passportId != list[0].passportId {
          assert rest[k] in rest;
          var m :| 0 <= m < |list[1..]| && list[1..][m] == rest[k];
          assert list[m + 1] == rest[k];
        }
        var r := [list[0]] + rest;
        forall i, j | 0 <= i < j < |r| ensures r[i].passportId != r[j].passportId {
          if i > 0 {
            assert r[i] == rest[i - 1] && r[j] == rest[j - 1];
          } else {
            assert r[j] == rest[j - 1];
          }
        }
      }
    }
  }

  /**
   * After `addSearch(p, n)` the new entry is first and is the only one for `p`;
   * the others are the previous list without `p`, in their order, cut to four.
   */
  lemma WithSearchShape(list: seq<RecentSearch>, passportId: string, patientName: string, searchedAt: string)
    ensures var r := WithSearch(list, passportId, patientName, searchedAt);
      && r[1..] == Take(WithoutPassport(list, passportId), MaxRecentSearches - 1)
      && (forall k :: 0 < k < |r| ==> r[k].passportId != passportId)
      && IsSubsequence(r[1..], list)
  {
    var rest := WithoutPassport(list, passportId);
    var r := WithSearch(list, passportId, patientName, searchedAt);
    assert r[1..] == Take(rest, MaxRecentSearches - 1);
    forall k | 0 < k < |r| ensures r[k].passportId != passportId {
      assert r[k] == rest[k - 1];
      assert rest[k - 1] in rest;
    }
    WithoutPassportKeepsOrder(list, passportId);
    PrefixOfSubsequence(rest, list, |r| - 1);
    assert r[1..] == rest[..|r| - 1];
  }

  /** `addSearch` keeps passports unique. */
  lemma WithSearchUnique(list: seq<RecentSearch>, passportId: string, patientName: string, searchedAt: string)
    requires UniquePassports(list)
    ensures UniquePassports(WithSearch(list, passportId, patientName, searchedAt))
  {
    var rest := WithoutPassport(list, passportId);
    var r := WithSearch(list, passportId, patientName, searchedAt);
    WithoutPassportUnique(list, passportId);
    WithSearchShape(list, passportId, patientName, searchedAt);
    forall i, j | 0 <= i < j < |r| ensures r[i].passportId != r[j].passportId {
      if i > 0 {
        assert r[i] == rest[i - 1] && r[j] == rest[j - 1];
      }
    }
  }

  /** The list the mount effect loads from what storage holds. */
  function Mounted(item: Option<Persisted>): (r: seq<RecentSearch>)
    ensures item.Some? && item.value.Parsed? ==> r == item.value.entries
    ensures r != [] ==> item.Some? && item.value.Parsed?
  {
    match item
    case Some(Parsed(entries)) => entries
    case _ => []
  }

  /** The history held by one use of the hook, with its copy in browser storage. */
  class RecentSearchHistory {
    var list: seq<RecentSearch>
    var stored: Option<Persisted>

    /** Reloading the page shows the list that is held now. */
    ghost predicate InSync()
      reads this
    {
      Mounted(stored) == list && (stored.Some? ==> stored.value.Parsed?)
    }

    /**
     * The state after the mount effect: a parsed value is loaded as it is, an
     * unparseable one is removed from storage, nothing stored leaves the list empty.
     */
    constructor (item: Option<Persisted>)
      ensures list == Mounted(item)
      ensures stored == if item == Some(Unparseable) then None else item
      ensures InSync()
    {
      list := Mounted(item);
      stored := if item == Some(Unparseable) then None else item;
    }

    method AddSearch(passportId: string, patientName: string, searchedAt: string)
      modifies this
      ensures list == WithSearch(old(list), passportId, patientName, searchedAt)
      ensures stored == Some(Parsed(list))
      ensures InSync()
      ensures UniquePassports(old(list)) ==> UniquePassports(list)
    {
      list := WithSearch(list, passportId, patientName, searchedAt);
      stored := Some(Parsed(list));
      if UniquePassports(old(list)) {
        WithSearchUnique(old(list), passportId, patientName, searchedAt);
      }
    }

    method RemoveSearch(passportId: string)
      modifies this
      ensures list == WithoutPassport(old(list), passportId)
      ensures stored == Some(Parsed(list))
      ensures InSync()
      ensures UniquePassports(old(list)) ==> UniquePassports(list)
      ensures (forall x :: x in old(list) ==> x.passportId != passportId) ==> list == old(list)
    {
      list := WithoutPassport(list, passportId);
      stored := Some(Parsed(list));
      if UniquePassports(old(list)) {
        WithoutPassportUnique(old(list), passportId);
      }
      if forall x :: x in old(list) ==> x.passportId != passportId {
        WithoutAbsentPassport(old(list), passportId);
      }
    }

    method ClearSearches()
      modifies this
      ensures list == [] && stored == None
      ensures InSync()
    {
      list := [];
      stored := None;
    }
  }
}
