/** The registry page of src/pages/SheetRegistry/SheetRegistry.jsx: the
    filter over the loaded sheets and the counts per status. */
module SheetRegistry {
  import opened Wrappers
  import opened Strings
  import opened Lists
  import opened Types

  /** The four filter controls; `"all"` switches a criterion off, as an
      empty text switches off the search. */
  datatype Filters = Filters(search: string, status: string, objectType: string, executor: string)

  const All: string := "all"

  const NoFilters: Filters := Filters("", All, All, All)

  /** The search criterion: the lower-cased number, or the lower-cased name
      of the sheet's object when it has one, contains the lower-cased text. */
  predicate SearchMatches(search: string, sheet: InventorySheet) {
    var needle := ToLower(search);
    Contains(ToLower(sheet.number), needle)
    || (sheet.powerObject.Some? && Contains(ToLower(sheet.powerObject.value.name), needle))
  }

  /** The test applied to each sheet by `filteredSheets`. */
  predicate Matches(f: Filters, sheet: InventorySheet) {
    && (f.search == "" || SearchMatches(f.search, sheet))
    && (f.status == All || StatusKey(sheet.status) == f.status)
    && (f.objectType == All || (sheet.powerObject.Some? && ObjectTypeKey(sheet.powerObject.value.objectType) == f.objectType))
    && (f.executor == All || sheet.executorId == f.executor)
  }

  function MatchesFilter(f: Filters): InventorySheet -> bool {
    (s: InventorySheet) => Matches(f, s)
  }

  function FilteredSheets(sheets: seq<InventorySheet>, f: Filters): seq<InventorySheet> {
    Filter(sheets, MatchesFilter(f))
  }

  /** The filtered list keeps the order of the loaded one and holds exactly
      the sheets that pass every active criterion. */
  lemma FilteredIsSelection(sheets: seq<InventorySheet>, f: Filters)
    ensures var r := FilteredSheets(sheets, f);
      && IsSubsequence(r, sheets) && |r| <= |sheets|
      && (forall s :: s in r <==> s in sheets && Matches(f, s))
      && (forall s :: multiset(r)[s] == if Matches(f, s) then multiset(sheets)[s] else 0)
  {
    FilterCounts(sheets, MatchesFilter(f));
  }

  /** With every control switched off, the registry shows every sheet. */
  lemma NoFiltersShowsAll(sheets: seq<InventorySheet>)
    ensures FilteredSheets(sheets, NoFilters) == sheets
  {
  }

  /** Switching one criterion off never hides a sheet that was shown. */
  lemma SwitchingOffWidens(f: Filters, sheet: InventorySheet)
    requires Matches(f, sheet)
    ensures Matches(f.(search := ""), sheet) && Matches(f.(status := All), sheet)
    ensures Matches(f.(objectType := All), sheet) && Matches(f.(executor := All), sheet)
  {
  }

  /** The search ignores the case of the typed text. */
  lemma SearchIgnoresCase(f: Filters, sheet: InventorySheet)
    ensures Matches(f.(search := ToLower(f.search)), sheet) <==> Matches(f, sheet)
  {
    ToLowerIdempotent(f.search);
  }

  /** A status key that names no status hides every sheet. */
  lemma UnknownStatusHidesAll(sheets: seq<InventorySheet>, f: Filters)
    requires f.status != All && forall st: SheetStatus :: StatusKey(st) != f.status
    ensures FilteredSheets(sheets, f) == []
  {
    forall i | 0 <= i < |sheets| ensures !MatchesFilter(f)(sheets[i]) {
      assert StatusKey(sheets[i].status) != f.status;
    }
  }

  // ---- stats ---------------------------------------------------------------------

  datatype Stats = Stats(total: nat, draft: nat, inWork: nat, underReview: nat, approved: nat, returned: nat)

  function HasStatus(st: SheetStatus): InventorySheet -> bool {
    (s: InventorySheet) => s.status == st
  }

  function StatusCount(sheets: seq<InventorySheet>, st: SheetStatus): nat {
    Count(sheets, HasStatus(st))
  }

  function ComputeStats(sheets: seq<InventorySheet>): Stats {
    Stats(|sheets|, StatusCount(sheets, Draft), StatusCount(sheets, InWork), StatusCount(sheets, UnderReview),
          StatusCount(sheets, Approved), StatusCount(sheets, Returned))
  }

  /** Every sheet has exactly one of the five statuses, so the five counts
      add up to the total. */
  lemma {:induction false} StatsSumToTotal(sheets: seq<InventorySheet>)
    ensures var st := ComputeStats(sheets);
      st.draft + st.inWork + st.underReview + st.approved + st.returned == st.total
    decreases |sheets|
  {
    if sheets != [] {
      var x := sheets[0];
      var rest := sheets[1..];
      assert sheets == [x] + rest;
      StatsSumToTotal(rest);
      CountCons(x, rest, HasStatus(Draft));
      CountCons(x, rest, HasStatus(InWork));
      CountCons(x, rest, HasStatus(UnderReview));
      CountCons(x, rest, HasStatus(Approved));
      CountCons(x, rest, HasStatus(Returned));
    }
  }

  lemma StatusKeyInjective(a: SheetStatus, b: SheetStatus)
    ensures StatusKey(a) == StatusKey(b) <==> a == b
  {
  }

  /** The count shown for a status is the number of rows the registry shows
      when its status control is set to that status and the rest are off. */
  lemma StatusFilterAgreesWithCount(sheets: seq<InventorySheet>, st: SheetStatus)
    ensures |FilteredSheets(sheets, NoFilters.(status := StatusKey(st)))| == StatusCount(sheets, st)
  {
    var f := NoFilters.(status := StatusKey(st));
    forall i | 0 <= i < |sheets| ensures MatchesFilter(f)(sheets[i]) == HasStatus(st)(sheets[i]) {
      StatusKeyInjective(sheets[i].status, st);
    }
    FilterCongruent(sheets, MatchesFilter(f), HasStatus(st));
  }

  /** The inspected count of a sheet's locations (the progress column). */
  function InspectedCount(locs: seq<TechnicalLocation>): (n: nat)
    ensures n <= |locs|
    ensures n == |locs| <==> forall i :: 0 <= i < |locs| ==> locs[i].inspected
  {
    InspectedCountFull(locs);
    Count(locs, (l: TechnicalLocation) => l.inspected)
  }

  lemma {:induction false} InspectedCountFull(locs: seq<TechnicalLocation>)
    ensures Count(locs, (l: TechnicalLocation) => l.inspected) == |locs| <==>
      forall i :: 0 <= i < |locs| ==> locs[i].inspected
    decreases |locs|
  {
    if locs != [] {
      InspectedCountFull(locs[1..]);
      assert locs == [locs[0]] + locs[1..];
      CountCons(locs[0], locs[1..], (l: TechnicalLocation) => l.inspected);
      if forall i :: 0 <= i < |locs[1..]| ==> locs[1..][i].inspected {
        if locs[0].inspected {
          assert forall i :: 0 <= i < |locs| ==> locs[i].inspected by {
            forall i | 0 <= i < |locs| ensures locs[i].inspected {
              if i > 0 { assert locs[i] == locs[1..][i - 1]; }
            }
          }
        }
      }
    }
  }
}
