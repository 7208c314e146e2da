/** The convoy status page: a case-insensitive search over the id, name and
    route of a fixed table of seven convoys. */
module ConvoyStatusPage {
  import opened Types
  import opened JsString

  const ALL_CONVOYS: seq<Convoy> := [
    Convoy("CNV-Alpha-1", "Supply Run A", Moving, "14:00", "R-104", "Munitions"),
    Convoy("CNV-Bravo-4", "Personnel T", Delayed, "16:30", "R-202", "Troops"),
    Convoy("CNV-Charlie-2", "Med Evac", Completed, "09:15", "R-101", "Medical"),
    Convoy("CNV-Delta-9", "Fuel Log", Moving, "15:45", "R-305", "Fuel"),
    Convoy("CNV-Echo-3", "Eng. Corps", Scheduled, "19:00", "R-108", "Heavy Machinery"),
    Convoy("CNV-Foxtrot-7", "Intel Unit", Moving, "14:20", "R-104", "Sensitive"),
    Convoy("CNV-Golf-1", "Ration Dist", Delayed, "18:00", "R-404", "Supplies")
  ]

  /** The filter's test for one convoy, given the already lower-cased search. */
  predicate MatchesLowered(c: Convoy, query: string) {
    Includes(ToLower(c.id), query) || Includes(ToLower(c.name), query) || Includes(ToLower(c.route), query)
  }

  /** The filter's test: the lower-cased search occurs in the lower-cased
      id, name or route.  The empty search matches every convoy. */
  function Matches(c: Convoy, search: string): (m: bool)
    ensures search == "" ==> m
  {
    MatchesLowered(c, ToLower(search))
  }

  /** Lower-casing the search first never changes whether a convoy matches. */
  lemma MatchesIgnoresCase(c: Convoy, search: string)
    ensures Matches(c, ToLower(search)) == Matches(c, search)
  {
    ToLowerIdempotent(search);
  }

  /** `convoys.filter(...)`. */
  function FilterConvoys(convoys: seq<Convoy>, search: string): (r: seq<Convoy>)
    ensures |r| <= |convoys|
  {
    if convoys == [] then []
    else (if Matches(convoys[0], search) then [convoys[0]] else []) + FilterConvoys(convoys[1..], search)
  }

  /** `filteredConvoys`: never more rows than the table has. */
  function FilteredConvoys(search: string): (r: seq<Convoy>)
    ensures |r| <= |ALL_CONVOYS|
  {
    FilterConvoys(ALL_CONVOYS, search)
  }

  /** `sub` can be obtained from `s` by deleting elements. */
  ghost predicate IsSubsequence<T>(sub: seq<T>, s: seq<T>)
    decreases |s|
  {
    if sub == [] then true
    else if s == [] then false
    else (sub[0] == s[0] && IsSubsequence(sub[1..], s[1..])) || IsSubsequence(sub, s[1..])
  }

  ghost predicate DistinctIds(cs: seq<Convoy>) {
    forall i, j :: 0 <= i < j < |cs| ==> cs[i].id != cs[j].id
  }

  /** A convoy is kept exactly when it is in the table and the search matches it. */
  lemma {:induction false} FilterSoundComplete(convoys: seq<Convoy>, search: string, c: Convoy)
    ensures c in FilterConvoys(convoys, search) <==> c in convoys && Matches(c, search)
  {
    if convoys != [] {
      FilterSoundComplete(convoys[1..], search, c);
      assert convoys == [convoys[0]] + convoys[1..];
    }
  }

  /** The result keeps the table's order. */
  lemma {:induction false} FilterIsSubsequence(convoys: seq<Convoy>, search: string)
    ensures IsSubsequence(FilterConvoys(convoys, search), convoys)
  {
    if convoys != [] {
      FilterIsSubsequence(convoys[1..], search);
      var rest := FilterConvoys(convoys[1..], search);
      if Matches(convoys[0], search) {
        var sub := [convoys[0]] + rest;
        assert FilterConvoys(convoys, search) == sub;
        assert sub[1..] == rest;
        assert sub[0] == convoys[0] && IsSubsequence(sub[1..], convoys[1..]);
      } else {
        assert FilterConvoys(convoys, search) == rest;
      }
    }
  }

  /** With distinct ids in the table, the result has no repeated convoy. */
  lemma {:induction false} FilterKeepsIdsDistinct(convoys: seq<Convoy>, search: string)
    requires DistinctIds(convoys)
    ensures DistinctIds(FilterConvoys(convoys, search))
  {
    if convoys != [] {
      var tail := convoys[1..];
      assert DistinctIds(tail);
      FilterKeepsIdsDistinct(tail, search);
      var rest := FilterConvoys(tail, search);
      forall c | c in rest ensures c.id != convoys[0].id {
        FilterSoundComplete(tail, search, c);
      }
    }
  }

  lemma AllConvoysDistinctIds()
    ensures |ALL_CONVOYS| == 7
    ensures DistinctIds(ALL_CONVOYS)
  {
  }

  /** The page shows exactly the table's convoys that the search matches. */
  lemma FilteredConvoysSoundComplete(search: string, c: Convoy)
    ensures c in FilteredConvoys(search) <==> c in ALL_CONVOYS && Matches(c, search)
  {
    FilterSoundComplete(ALL_CONVOYS, search, c);
  }

  /** The filtered list is drawn from the table in order, without repeats. */
  lemma FilteredConvoysOrderedDistinct(search: string)
    ensures IsSubsequence(FilteredConvoys(search), ALL_CONVOYS)
    ensures DistinctIds(FilteredConvoys(search))
  {
    FilterIsSubsequence(ALL_CONVOYS, search);
    AllConvoysDistinctIds();
    FilterKeepsIdsDistinct(ALL_CONVOYS, search);
  }

  /** An empty search keeps every convoy. */
  lemma {:induction false} EmptySearchKeepsAll(convoys: seq<Convoy>)
    ensures FilterConvoys(convoys, "") == convoys
  {
    if convoys != [] {
      IncludesEmpty(ToLower(convoys[0].id));
      assert ToLower("") == "";
      EmptySearchKeepsAll(convoys[1..]);
      assert convoys == [convoys[0]] + convoys[1..];
    }
  }

  /** Only the lower-cased form of the search matters. */
  lemma {:induction false} SameLowerSameResult(convoys: seq<Convoy>, s1: string, s2: string)
    requires ToLower(s1) == ToLower(s2)
    ensures FilterConvoys(convoys, s1) == FilterConvoys(convoys, s2)
  {
    if convoys != [] {
      SameLowerSameResult(convoys[1..], s1, s2);
    }
  }

  /** Load type, status and ETA are never searched. */
  lemma UnsearchedFields(c: Convoy, search: string, status: ConvoyStatus, eta: string, loadType: string)
    ensures Matches(c, search) == Matches(c.(status := status, eta := eta, loadType := loadType), search)
  {
  }

  /** What the table card shows for a search. */
  datatype TableView = TableView(titleCount: nat, rows: seq<Convoy>, noMatchRow: bool)

  /** The card title counts the filtered rows, and the "No convoys found"
      row appears exactly when the filter keeps nothing. */
  function ConvoyTable(search: string): (v: TableView)
    ensures v.rows == FilteredConvoys(search)
    ensures v.titleCount == |v.rows|
    ensures v.noMatchRow <==> v.rows == []
  {
    var rows := FilteredConvoys(search);
    TableView(|rows|, rows, |rows| == 0)
  }
}
