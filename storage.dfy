/** The sheet repository and the status-gated lifecycle transitions of
    src/store/storage.ts. The browser's local storage is a field holding the
    stored list (None while the key was never written); timestamps, new ids,
    the month and the random draw of the sheet number are parameters. */
module Storage {
  import opened Wrappers
  import opened Strings
  import opened Lists
  import opened Types
  import opened TemplateGenerator

  // ---- generateSheetNumber ----------------------------------------------------

  /** `ИНВ-${year}${month}-${random}`, the month (0-based, as `getMonth`
      returns it) shown 1-based on two digits and the random draw on three. */
  function SheetNumber(year: nat, monthIndex: nat, draw: nat): string {
    "ИНВ-" + NatToString(year) + PadStart(NatToString(monthIndex + 1), 2, '0')
      + "-" + PadStart(NatToString(draw), 3, '0')
  }

  /** For a four-digit year, a month index 0..11 and a draw 0..999 (what
      `Math.floor(Math.random() * 1000)` yields) the number has the fixed
      layout prefix, six digits, dash, three digits, and each digit field
      reads back as the value it was made from. */
  lemma SheetNumberFormat(year: nat, monthIndex: nat, draw: nat)
    requires 1000 <= year <= 9999 && monthIndex < 12 && draw < 1000
    ensures var s := SheetNumber(year, monthIndex, draw);
      && |s| == 14 && s[..4] == "ИНВ-" && s[10] == '-'
      && AllDigits(s[4..10]) && AllDigits(s[4..8]) && AllDigits(s[8..10]) && AllDigits(s[11..])
      && ParseDecimal(s[4..8]) == year
      && ParseDecimal(s[8..10]) == monthIndex + 1
      && ParseDecimal(s[11..]) == draw
  {
    var y := NatToString(year);
    var m := PadStart(NatToString(monthIndex + 1), 2, '0');
    var d := PadStart(NatToString(draw), 3, '0');
    assert |y| == 4 && AllDigits(y) && ParseDecimal(y) == year by {
      NatToStringLength(year);
      NatToStringRoundTrip(year);
    }
    assert |m| == 2 && AllDigits(m) && ParseDecimal(m) == monthIndex + 1 by {
      NatToStringLength(monthIndex + 1);
      PaddedRoundTrip(monthIndex + 1, 2);
    }
    assert |d| == 3 && AllDigits(d) && ParseDecimal(d) == draw by {
      NatToStringLength(draw);
      PaddedRoundTrip(draw, 3);
    }
    assert SheetNumber(year, monthIndex, draw) == "ИНВ-" + y + m + "-" + d;
    NumberFields("ИНВ-", y, m, d);
  }

  /** Where the four pieces of a sheet number sit in the joined string. */
  lemma NumberFields(p: string, y: string, m: string, d: string)
    requires |p| == 4 && |y| == 4 && |m| == 2 && |d| == 3
    requires AllDigits(y) && AllDigits(m) && AllDigits(d)
    ensures var s := p + y + m + "-" + d;
      && |s| == 14 && s[..4] == p && s[4..8] == y && s[8..10] == m && s[10] == '-' && s[11..] == d
      && AllDigits(s[4..10]) && AllDigits(s[4..8]) && AllDigits(s[8..10]) && AllDigits(s[11..])
      && ParseDecimal(s[4..8]) == ParseDecimal(y)
      && ParseDecimal(s[8..10]) == ParseDecimal(m)
      && ParseDecimal(s[11..]) == ParseDecimal(d)
  {
    var s := p + y + m + "-" + d;
    assert s[4..10] == y + m;
    assert forall i :: 0 <= i < 6 ==> (y + m)[i] == if i < 4 then y[i] else m[i - 4];
  }

  // ---- demonstration data -----------------------------------------------------

  const MockUsers: seq<User> := [
    User("user-1", "Иванов А.А.", Master),
    User("user-2", "Петров С.С.", Executor),
    User("user-3", "Сидоров В.В.", Executor),
    User("user-4", "Козлов М.Н.", Master)
  ]

  const MockObjects: seq<PowerObject> := [
    PowerObject("obj-1", "ВЛ-10кВ Филипенко", Line, Some("с. Филипенко"),
      Some("Воздушная линия 10кВ"), [Support, Span],
      map["voltage" := Str("10 кВ"), "length" := Str("5.2 км")]),
    PowerObject("obj-2", "ПС 35/10кВ Центральная", Substation, Some("г. Энергодар, ул. Промышленная, 1"),
      Some("Подстанция 35/10кВ"), [Bay, Unit],
      map["voltageHigh" := Str("35 кВ"), "voltageLow" := Str("10 кВ"), "power" := Str("2х16 МВА")]),
    PowerObject("obj-3", "ТП-127", TransformerSubstation, Some("г. Энергодар, ул. Ленина, 45"),
      Some("Трансформаторная подстанция"), [TechLocationType.Transformer, Bay],
      map["voltage" := Str("10/0.4 кВ"), "power" := Str("400 кВА")]),
    PowerObject("obj-4", "РП-5", DistributionPoint, Some("г. Энергодар, ул. Промышленная, 15"),
      Some("Распределительный пункт"), [Feeder, Bay],
      map["voltage" := Str("10 кВ"), "feederCount" := Num(6)])
  ]

  /** `MOCK_USERS.find(u => u.id === id)` and `MOCK_OBJECTS.find(...)`. */
  function FindUser(id: string): Option<User> {
    Find(MockUsers, (u: User) => u.id == id)
  }

  function FindObject(id: string): Option<PowerObject> {
    Find(MockObjects, (o: PowerObject) => o.id == id)
  }

  /** The substation's locations as the second demonstration sheet has them:
      all inspected, the first with a comment and one insulator. */
  function InspectedSubstationBays(): seq<TechnicalLocation> {
    var locs := InitialTechLocations("obj-2", "substation");
    seq(|locs|, i requires 0 <= i < |locs| =>
      locs[i].(inspected := true, inspectedAt := Some("2026-02-21T16:00:00Z"),
               comment := if i == 0 then Some("Требует ремонта") else None,
               materials := if i == 0 then [Material("mat-1", Insulator, "Изолятор ШФ-10", 3, "шт", None, true)] else []))
  }

  function InspectedTransformerLocations(): seq<TechnicalLocation> {
    var locs := InitialTechLocations("obj-3", "transformer_substation");
    seq(|locs|, i requires 0 <= i < |locs| =>
      locs[i].(inspected := true, inspectedAt := Some("2026-02-18T10:00:00Z")))
  }

  /** `MOCK_SHEETS`: what the repository seeds itself with. */
  function MockSheets(): seq<InventorySheet> {
    [MockSheet1(), MockSheet2(), MockSheet3(), MockSheet4()]
  }

  function MockSheet1(): InventorySheet {
    InventorySheet("sheet-1", "ИНВ-202602-001", "obj-1", Some(MockObjects[0]), None,
      "user-2", Some(MockUsers[1]), "user-1", Some(MockUsers[0]), InWork,
      InitialTechLocations("obj-1", "line"), "2026-02-20T10:00:00Z",
      Some("2026-02-20T14:30:00Z"), None, None, None, None, None, None)
  }

  function MockSheet2(): InventorySheet {
    InventorySheet("sheet-2", "ИНВ-202602-002", "obj-2", Some(MockObjects[1]), None,
      "user-3", Some(MockUsers[2]), "user-1", Some(MockUsers[0]), UnderReview,
      InspectedSubstationBays(), "2026-02-19T09:00:00Z",
      Some("2026-02-19T10:00:00Z"), Some("2026-02-22T11:00:00Z"), None, None, None, None, None)
  }

  function MockSheet3(): InventorySheet {
    InventorySheet("sheet-3", "ИНВ-202602-003", "obj-3", Some(MockObjects[2]), None,
      "user-2", Some(MockUsers[1]), "user-4", Some(MockUsers[3]), Approved,
      InspectedTransformerLocations(), "2026-02-15T08:00:00Z",
      Some("2026-02-15T12:00:00Z"), Some("2026-02-17T15:00:00Z"), None, None,
      Some("2026-02-18T09:00:00Z"), Some("user-4"), Some(MockUsers[3]))
  }

  function MockSheet4(): InventorySheet {
    InventorySheet("sheet-4", "ИНВ-202602-004", "obj-4", Some(MockObjects[3]), None,
      "user-3", Some(MockUsers[2]), "user-1", Some(MockUsers[0]), Returned,
      InitialTechLocations("obj-4", "distribution_point"), "2026-02-21T08:00:00Z",
      Some("2026-02-21T09:00:00Z"), Some("2026-02-23T16:00:00Z"), Some("2026-02-24T10:00:00Z"),
      Some("Недостаточно фотографий технических мест"), None, None, None)
  }

  // ---- consistency of stored sheets --------------------------------------------

  /** What a well-kept location satisfies: an inspection time exactly when it
      is inspected, and at most eight photos. */
  predicate LocationInvariant(loc: TechnicalLocation) {
    (loc.inspectedAt.Some? <==> loc.inspected) && |loc.photos| <= 8
  }

  /** What a well-kept sheet satisfies: its locations are well kept, and the
      lifecycle timestamps match the edges taken to reach its status. */
  predicate SheetInvariant(s: InventorySheet) {
    && (forall i :: 0 <= i < |s.techLocations| ==> LocationInvariant(s.techLocations[i]))
    && (s.returnComment.Some? <==> s.returnedAt.Some?)
    && (s.status != Draft ==> s.acceptedAt.Some?)
    && (s.status in {UnderReview, Approved} ==> s.submittedAt.Some?)
    && (s.status == Returned ==> s.submittedAt.Some? && s.returnedAt.Some?)
    && (s.status == Approved ==> s.approvedAt.Some? && s.approvedBy.Some?)
  }

  predicate AllValid(sheets: seq<InventorySheet>) {
    forall i :: 0 <= i < |sheets| ==> SheetInvariant(sheets[i])
  }

  /** Fresh locations are well kept. */
  lemma FreshLocationsKept(locs: seq<TechnicalLocation>, objectId: string)
    requires forall loc :: loc in locs ==> IsFresh(loc, objectId)
    ensures forall i :: 0 <= i < |locs| ==> LocationInvariant(locs[i])
  {
    forall i | 0 <= i < |locs| ensures LocationInvariant(locs[i]) {
      assert IsFresh(locs[i], objectId);
    }
  }

  /** The seed has four sheets with distinct ids, one each in work, under
      review, approved and returned (none in draft), and every one is well kept. */
  lemma MockSheetsShape()
    ensures |MockSheets()| == 4
    ensures var m := MockSheets();
      && m[0].id != m[1].id && m[0].id != m[2].id && m[0].id != m[3].id
      && m[1].id != m[2].id && m[1].id != m[3].id && m[2].id != m[3].id
    ensures var m := MockSheets();
      [m[0].status, m[1].status, m[2].status, m[3].status] == [InWork, UnderReview, Approved, Returned]
    ensures AllValid(MockSheets())
  {
    MockSheetsIds();
    MockSheetsStatuses();
    MockSheetsKept();
  }

  lemma MockSheetsIds()
    ensures |MockSheets()| == 4
    ensures var m := MockSheets();
      && m[0].id != m[1].id && m[0].id != m[2].id && m[0].id != m[3].id
      && m[1].id != m[2].id && m[1].id != m[3].id && m[2].id != m[3].id
  {
  }

  lemma MockSheetsStatuses()
    ensures var m := MockSheets();
      |m| == 4 && [m[0].status, m[1].status, m[2].status, m[3].status] == [InWork, UnderReview, Approved, Returned]
  {
  }

  lemma FourValid(a: InventorySheet, b: InventorySheet, c: InventorySheet, d: InventorySheet)
    requires SheetInvariant(a) && SheetInvariant(b) && SheetInvariant(c) && SheetInvariant(d)
    ensures AllValid([a, b, c, d])
  {
  }

  lemma MockSheetsKept()
    ensures AllValid(MockSheets())
  {
    MockSheet1Kept();
    MockSheet2Kept();
    MockSheet3Kept();
    MockSheet4Kept();
    FourValid(MockSheet1(), MockSheet2(), MockSheet3(), MockSheet4());
  }

  lemma MockSheet1Kept()
    ensures SheetInvariant(MockSheet1())
  {
    GeneratedLocationsFresh("obj-1", "line");
    FreshLocationsKept(MockSheet1().techLocations, "obj-1");
  }

  lemma MockSheet4Kept()
    ensures SheetInvariant(MockSheet4())
  {
    GeneratedLocationsFresh("obj-4", "distribution_point");
    FreshLocationsKept(MockSheet4().techLocations, "obj-4");
  }

  lemma MockSheet2Kept()
    ensures SheetInvariant(MockSheet2())
  {
    var locs := InitialTechLocations("obj-2", "substation");
    GeneratedLocationsFresh("obj-2", "substation");
    var out := InspectedSubstationBays();
    forall i | 0 <= i < |out| ensures LocationInvariant(out[i]) {
      assert locs[i] in locs;
    }
  }

  lemma MockSheet3Kept()
    ensures SheetInvariant(MockSheet3())
  {
    var locs := InitialTechLocations("obj-3", "transformer_substation");
    GeneratedLocationsFresh("obj-3", "transformer_substation");
    var out := InspectedTransformerLocations();
    forall i | 0 <= i < |out| ensures LocationInvariant(out[i]) {
      assert locs[i] in locs;
    }
  }

  // ---- the list operations, as functions of the stored list -----------------------

  /** `sheets.find(s => s.id === id)`. */
  function SheetById(sheets: seq<InventorySheet>, id: string): (r: Option<InventorySheet>)
    ensures r.Some? ==> r.value in sheets && r.value.id == id
    ensures r.None? <==> forall s :: s in sheets ==> s.id != id
  {
    Find(sheets, (s: InventorySheet) => s.id == id)
  }

  function IndexOfSheet(sheets: seq<InventorySheet>, id: string): Option<nat> {
    FindIndex(sheets, (s: InventorySheet) => s.id == id)
  }

  /** `updateSheet`: the first sheet with the same id is replaced; nothing
      happens when there is none. */
  function ReplaceFirst(sheets: seq<InventorySheet>, updated: InventorySheet): seq<InventorySheet> {
    match IndexOfSheet(sheets, updated.id)
    case None => sheets
    case Some(i) => sheets[i := updated]
  }

  lemma UpdateSheetEffect(sheets: seq<InventorySheet>, updated: InventorySheet)
    ensures var r := ReplaceFirst(sheets, updated);
      && |r| == |sheets|
      && ((forall s :: s in sheets ==> s.id != updated.id) ==> r == sheets)
      && (forall i :: 0 <= i < |sheets| ==> r[i] == sheets[i] || (r[i] == updated && sheets[i].id == updated.id))
      && ((exists s :: s in sheets && s.id == updated.id) ==>
            exists i ::
              && 0 <= i < |sheets| && sheets[i].id == updated.id
              && (forall j :: 0 <= j < i ==> sheets[j].id != updated.id)
              && r == sheets[i := updated])
  {
  }

  /** `deleteSheet`: every sheet with the id goes, the rest stay in order. */
  function RemoveSheet(sheets: seq<InventorySheet>, id: string): seq<InventorySheet> {
    Filter(sheets, (s: InventorySheet) => s.id != id)
  }

  lemma DeleteSheetEffect(sheets: seq<InventorySheet>, id: string)
    ensures var r := RemoveSheet(sheets, id);
      && (forall s :: s in r ==> s.id != id)
      && (forall s :: s in sheets && s.id != id ==> s in r)
      && (forall s :: multiset(r)[s] == if s.id != id then multiset(sheets)[s] else 0)
      && IsSubsequence(r, sheets)
      && ((forall s :: s in sheets ==> s.id != id) ==> r == sheets)
  {
    FilterCounts(sheets, (s: InventorySheet) => s.id != id);
  }

  // ---- createSheet -----------------------------------------------------------------

  /** `object?.type || 'line'`: an object id that is not in the catalog of
      objects falls back to the line template. */
  function TemplateTypeFor(obj: Option<PowerObject>): string {
    if obj.Some? then ObjectTypeKey(obj.value.objectType) else "line"
  }

  /** The filter applied to the template: only a non-empty selection filters. */
  function SelectLocations(locs: seq<TechnicalLocation>, selected: Option<seq<string>>): seq<TechnicalLocation> {
    if selected.Some? && |selected.value| > 0 then
      Filter(locs, (tl: TechnicalLocation) => tl.id in selected.value)
    else locs
  }

  /** The sheet `createSheet` builds. */
  function NewSheet(objectId: string, executorId: string, creatorId: string,
                    selected: Option<seq<string>>, id: string, year: nat, monthIndex: nat, draw: nat,
                    createdAt: string): InventorySheet
  {
    var obj := FindObject(objectId);
    InventorySheet(id, SheetNumber(year, monthIndex, draw), objectId, obj, selected,
      executorId, FindUser(executorId), creatorId, FindUser(creatorId), Draft,
      SelectLocations(InitialTechLocations(objectId, TemplateTypeFor(obj)), selected),
      createdAt, None, None, None, None, None, None, None)
  }

  /** The selection keeps the template's order; it keeps everything when
      nothing (or an empty list) is selected, and otherwise exactly the
      template locations whose id is selected. */
  lemma SelectLocationsEffect(locs: seq<TechnicalLocation>, selected: Option<seq<string>>)
    ensures var r := SelectLocations(locs, selected);
      && IsSubsequence(r, locs)
      && ((selected.None? || selected == Some([])) ==> r == locs)
      && (selected.Some? && selected.value != [] ==>
            && (forall loc :: loc in r <==> loc in locs && loc.id in selected.value)
            && (forall loc :: multiset(r)[loc] == if loc.id in selected.value then multiset(locs)[loc] else 0))
  {
    SubsequenceOfSelf(locs);
    if selected.Some? {
      FilterCounts(locs, (tl: TechnicalLocation) => tl.id in selected.value);
    }
  }

  /** A new sheet is a well-kept draft with no lifecycle timestamps; its
      locations are fresh, come from the template in template order, are all
      of it when nothing (or an empty list) is selected, and otherwise are
      exactly the template locations whose id is selected. */
  lemma NewSheetShape(objectId: string, executorId: string, creatorId: string,
                      selected: Option<seq<string>>, id: string, year: nat, monthIndex: nat, draw: nat,
                      createdAt: string)
    ensures var s := NewSheet(objectId, executorId, creatorId, selected, id, year, monthIndex, draw, createdAt);
      var template := InitialTechLocations(objectId, TemplateTypeFor(FindObject(objectId)));
      && s.status == Draft && s.id == id && s.number == SheetNumber(year, monthIndex, draw)
      && s.objectId == objectId && s.powerObject == FindObject(objectId) && s.selectedTechLocationIds == selected
      && s.executorId == executorId && s.executor == FindUser(executorId)
      && s.creatorId == creatorId && s.creator == FindUser(creatorId) && s.createdAt == createdAt
      && s.acceptedAt == None && s.submittedAt == None && s.returnedAt == None
      && s.returnComment == None && s.approvedAt == None && s.approvedBy == None
      && SheetInvariant(s)
      && (forall loc :: loc in s.techLocations ==> IsFresh(loc, objectId))
      && IsSubsequence(s.techLocations, template)
      && ((selected.None? || selected == Some([])) ==> s.techLocations == template)
      && (selected.Some? && selected.value != [] ==>
            forall loc :: loc in s.techLocations <==> loc in template && loc.id in selected.value)
  {
    var s := NewSheet(objectId, executorId, creatorId, selected, id, year, monthIndex, draw, createdAt);
    var template := InitialTechLocations(objectId, TemplateTypeFor(FindObject(objectId)));
    assert s.techLocations == SelectLocations(template, selected);
    SelectLocationsEffect(template, selected);
    GeneratedLocationsFresh(objectId, TemplateTypeFor(FindObject(objectId)));
    assert forall loc :: loc in s.techLocations ==> IsFresh(loc, objectId);
    FreshLocationsKept(s.techLocations, objectId);
  }

  // ---- the four transitions ------------------------------------------------------

  datatype Action = Accept | Submit | Return | Approve

  /** One transition with the values it writes. */
  datatype Transition =
    | AcceptAt(at: string)
    | SubmitAt(at: string)
    | ReturnWith(comment: string, at: string)
    | ApproveBy(approverId: string, at: string)

  function ActionOf(tr: Transition): Action {
    match tr
    case AcceptAt(_) => Accept
    case SubmitAt(_) => Submit
    case ReturnWith(_, _) => Return
    case ApproveBy(_, _) => Approve
  }

  /** The status test each storage function makes before writing. */
  predicate StatusGate(status: SheetStatus, tr: Transition) {
    match tr
    case AcceptAt(_) => status == Draft
    case SubmitAt(_) => status == InWork || status == Returned
    case ReturnWith(_, _) => status == UnderReview
    case ApproveBy(_, _) => status == UnderReview
  }

  /** The assignments each storage function makes on the found sheet. */
  function Applied(s: InventorySheet, tr: Transition): InventorySheet {
    match tr
    case AcceptAt(at) => s.(status := InWork, acceptedAt := Some(at))
    case SubmitAt(at) => s.(status := UnderReview, submittedAt := Some(at))
    case ReturnWith(comment, at) => s.(status := Returned, returnedAt := Some(at), returnComment := Some(comment))
    case ApproveBy(approverId, at) =>
      s.(status := Approved, approvedAt := Some(at), approvedBy := Some(approverId), approver := FindUser(approverId))
  }

  /** A transition on the stored list: the new list and what the storage
      function returns (`undefined` as None). */
  function Transit(sheets: seq<InventorySheet>, sheetId: string, tr: Transition)
    : (seq<InventorySheet>, Option<InventorySheet>)
  {
    match IndexOfSheet(sheets, sheetId)
    case None => (sheets, None)
    case Some(i) =>
      if StatusGate(sheets[i].status, tr) then (sheets[i := Applied(sheets[i], tr)], Some(Applied(sheets[i], tr)))
      else (sheets, None)
  }

  /** The lifecycle as a table of edges: the reference the gates are
      checked against. `approved` has no way out. */
  function NextStatus(from: SheetStatus, a: Action): Option<SheetStatus> {
    match (from, a)
    case (Draft, Accept) => Some(InWork)
    case (InWork, Submit) => Some(UnderReview)
    case (Returned, Submit) => Some(UnderReview)
    case (UnderReview, Return) => Some(Returned)
    case (UnderReview, Approve) => Some(Approved)
    case _ => None
  }

  /** The storage gates admit exactly the edges of the table, and a
      successful transition moves the sheet along that edge. */
  lemma GateMatchesTable(s: InventorySheet, tr: Transition)
    ensures StatusGate(s.status, tr) <==> NextStatus(s.status, ActionOf(tr)).Some?
    ensures StatusGate(s.status, tr) ==> Some(Applied(s, tr).status) == NextStatus(s.status, ActionOf(tr))
  {
  }

  lemma ApprovedIsTerminal(a: Action)
    ensures NextStatus(Approved, a) == None
  {
  }

  /** The fields no transition touches: identity, the object, the people
      named at creation, the locations and the creation time. */
  predicate RecordKept(before: InventorySheet, after: InventorySheet) {
    && after.id == before.id && after.number == before.number
    && after.objectId == before.objectId && after.powerObject == before.powerObject
    && after.selectedTechLocationIds == before.selectedTechLocationIds
    && after.executorId == before.executorId && after.executor == before.executor
    && after.creatorId == before.creatorId && after.creator == before.creator
    && after.techLocations == before.techLocations && after.createdAt == before.createdAt
  }

  /** The lifecycle fields a transition writes, field by field; every other
      lifecycle field keeps its value. */
  predicate Writes(before: InventorySheet, after: InventorySheet, tr: Transition) {
    match tr
    case AcceptAt(at) =>
      && after.acceptedAt == Some(at)
      && after.submittedAt == before.submittedAt
      && after.returnedAt == before.returnedAt && after.returnComment == before.returnComment
      && after.approvedAt == before.approvedAt && after.approvedBy == before.approvedBy
      && after.approver == before.approver
    case SubmitAt(at) =>
      && after.submittedAt == Some(at)
      && after.acceptedAt == before.acceptedAt
      && after.returnedAt == before.returnedAt && after.returnComment == before.returnComment
      && after.approvedAt == before.approvedAt && after.approvedBy == before.approvedBy
      && after.approver == before.approver
    case ReturnWith(comment, at) =>
      && after.returnedAt == Some(at) && after.returnComment == Some(comment)
      && after.acceptedAt == before.acceptedAt && after.submittedAt == before.submittedAt
      && after.approvedAt == before.approvedAt && after.approvedBy == before.approvedBy
      && after.approver == before.approver
    case ApproveBy(approverId, at) =>
      && after.approvedAt == Some(at) && after.approvedBy == Some(approverId)
      && after.approver == FindUser(approverId)
      && after.acceptedAt == before.acceptedAt && after.submittedAt == before.submittedAt
      && after.returnedAt == before.returnedAt && after.returnComment == before.returnComment
  }

  /** All or nothing: a transition either rewrites exactly the first sheet
      with the id, moving it along an edge of the table and touching only
      lifecycle fields, or returns None and leaves the list as it was. */
  lemma TransitEffect(sheets: seq<InventorySheet>, sheetId: string, tr: Transition)
    ensures var (after, r) := Transit(sheets, sheetId, tr);
      && |after| == |sheets|
      && (r.None? ==> after == sheets)
      && (r.None? <==> match SheetById(sheets, sheetId)
                       case None => true
                       case Some(s) => NextStatus(s.status, ActionOf(tr)).None?)
      && (r.Some? ==>
            exists i ::
              && 0 <= i < |sheets| && sheets[i].id == sheetId
              && (forall j :: 0 <= j < i ==> sheets[j].id != sheetId)
              && after == sheets[i := r.value]
              && SheetById(sheets, sheetId) == Some(sheets[i])
              && NextStatus(sheets[i].status, ActionOf(tr)) == Some(r.value.status)
              && RecordKept(sheets[i], r.value)
              && Writes(sheets[i], r.value, tr))
  {
    match IndexOfSheet(sheets, sheetId)
    case None =>
    case Some(i) =>
      GateMatchesTable(sheets[i], tr);
      if StatusGate(sheets[i].status, tr) {
        var r := Applied(sheets[i], tr);
        AppliedEffect(sheets[i], tr);
        assert SheetById(sheets, sheetId) == Some(sheets[i]);
        assert && 0 <= i < |sheets| && sheets[i].id == sheetId
               && (forall j :: 0 <= j < i ==> sheets[j].id != sheetId)
               && Transit(sheets, sheetId, tr).0 == sheets[i := r];
      }
  }

  /** What applying a transition writes into one sheet. */
  lemma AppliedEffect(s: InventorySheet, tr: Transition)
    requires StatusGate(s.status, tr)
    ensures NextStatus(s.status, ActionOf(tr)) == Some(Applied(s, tr).status)
    ensures RecordKept(s, Applied(s, tr)) && Writes(s, Applied(s, tr), tr)
  {
  }

  /** A transition keeps every sheet well kept, and a return comment, once
      written, is never removed. */
  lemma TransitPreservesInvariant(sheets: seq<InventorySheet>, sheetId: string, tr: Transition)
    requires AllValid(sheets)
    ensures AllValid(Transit(sheets, sheetId, tr).0)
    ensures forall i :: 0 <= i < |sheets| && sheets[i].returnComment.Some? ==>
      Transit(sheets, sheetId, tr).0[i].returnComment.Some?
  {
  }

  /** Writing through `returnSheet` stores the comment it was given. */
  lemma ReturnStoresComment(sheets: seq<InventorySheet>, sheetId: string, comment: string, at: string)
    ensures var (after, r) := Transit(sheets, sheetId, ReturnWith(comment, at));
      r.Some? ==>
        r.value.status == Returned && r.value.returnComment == Some(comment) && r.value.returnedAt == Some(at)
  {
  }

  /** The repository: the value under `inventory_sheets` in local storage. */
  class SheetStore {
    var stored: Option<seq<InventorySheet>>

    /** A store whose key was never written. */
    constructor ()
      ensures stored == None
    {
      stored := None;
    }

    /** What `getSheets` returns: the stored list, or the seed while nothing
        is stored. */
    function Current(): seq<InventorySheet>
      reads this
    {
      if stored.Some? then stored.value else MockSheets()
    }

    /** `getSheets`: seeds the key with the demonstration sheets the first
        time, and from then on returns what is stored. */
    method GetSheets() returns (sheets: seq<InventorySheet>)
      modifies this
      ensures sheets == old(Current()) && stored == Some(sheets)
      ensures old(stored).Some? ==> stored == old(stored)
    {
      if stored.None? {
        stored := Some(MockSheets());
      }
      sheets := stored.value;
    }

    /** `saveSheets`. */
    method SaveSheets(sheets: seq<InventorySheet>)
      modifies this
      ensures stored == Some(sheets)
    {
      stored := Some(sheets);
    }

    /** `getSheetById`. */
    method GetSheetById(id: string) returns (r: Option<InventorySheet>)
      modifies this
      ensures r == SheetById(old(Current()), id) && stored == Some(old(Current()))
    {
      var sheets := GetSheets();
      r := SheetById(sheets, id);
    }

    /** `createSheet`: the new sheet, a draft built from the template, is
        appended to the stored list. */
    method CreateSheet(objectId: string, executorId: string, creatorId: string,
                       selectedTechLocationIds: Option<seq<string>>,
                       newId: string, year: nat, monthIndex: nat, draw: nat, now: string)
      returns (sheet: InventorySheet)
      modifies this
      ensures sheet == NewSheet(objectId, executorId, creatorId, selectedTechLocationIds, newId, year, monthIndex, draw, now)
      ensures stored == Some(old(Current()) + [sheet])
      ensures |Current()| == |old(Current())| + 1 && Current()[|Current()| - 1].status == Draft
    {
      var sheets := GetSheets();
      var obj := FindObject(objectId);
      var executor := FindUser(executorId);
      var creator := FindUser(creatorId);
      var template := GenerateInitialTechLocations(objectId, TemplateTypeFor(obj));
      var techLocations := SelectLocations(template, selectedTechLocationIds);
      var number := SheetNumber(year, monthIndex, draw);
      sheet := InventorySheet(newId, number, objectId, obj, selectedTechLocationIds,
        executorId, executor, creatorId, creator, Draft, techLocations, now,
        None, None, None, None, None, None, None);
      sheets := sheets + [sheet];
      SaveSheets(sheets);
    }

    /** `updateSheet`. */
    method UpdateSheet(updatedSheet: InventorySheet)
      modifies this
      ensures stored == Some(ReplaceFirst(old(Current()), updatedSheet))
    {
      var sheets := GetSheets();
      var index := IndexOfSheet(sheets, updatedSheet.id);
      if index.Some? {
        sheets := sheets[index.value := updatedSheet];
        SaveSheets(sheets);
      }
    }

    /** `deleteSheet`: not gated by status. */
    method DeleteSheet(id: string)
      modifies this
      ensures stored == Some(RemoveSheet(old(Current()), id))
    {
      var sheets := GetSheets();
      var filtered := RemoveSheet(sheets, id);
      SaveSheets(filtered);
    }

    /** `acceptSheet`: `userId` is not consulted; who may accept is decided
        by the caller. */
    method AcceptSheet(sheetId: string, userId: string, now: string) returns (r: Option<InventorySheet>)
      modifies this
      ensures (Current(), r) == Transit(old(Current()), sheetId, AcceptAt(now)) && stored.Some?
    {
      var sheets := GetSheets();
      var index := IndexOfSheet(sheets, sheetId);
      if index.Some? && sheets[index.value].status == Draft {
        var sheet := sheets[index.value].(status := InWork, acceptedAt := Some(now));
        assert sheet == Applied(sheets[index.value], AcceptAt(now));
        sheets := sheets[index.value := sheet];
        SaveSheets(sheets);
        r := Some(sheet);
      } else {
        r := None;
      }
    }

    /** `submitSheet`. */
    method SubmitSheet(sheetId: string, now: string) returns (r: Option<InventorySheet>)
      modifies this
      ensures (Current(), r) == Transit(old(Current()), sheetId, SubmitAt(now)) && stored.Some?
    {
      var sheets := GetSheets();
      var index := IndexOfSheet(sheets, sheetId);
      if index.Some? && (sheets[index.value].status == InWork || sheets[index.value].status == Returned) {
        var sheet := sheets[index.value].(status := UnderReview, submittedAt := Some(now));
        assert sheet == Applied(sheets[index.value], SubmitAt(now));
        sheets := sheets[index.value := sheet];
        SaveSheets(sheets);
        r := Some(sheet);
      } else {
        r := None;
      }
    }

    /** `returnSheet`: stores whatever comment it is given. */
    method ReturnSheet(sheetId: string, comment: string, now: string) returns (r: Option<InventorySheet>)
      modifies this
      ensures (Current(), r) == Transit(old(Current()), sheetId, ReturnWith(comment, now)) && stored.Some?
    {
      var sheets := GetSheets();
      var index := IndexOfSheet(sheets, sheetId);
      if index.Some? && sheets[index.value].status == UnderReview {
        var sheet := sheets[index.value].(status := Returned, returnedAt := Some(now), returnComment := Some(comment));
        assert sheet == Applied(sheets[index.value], ReturnWith(comment, now));
        sheets := sheets[index.value := sheet];
        SaveSheets(sheets);
        r := Some(sheet);
      } else {
        r := None;
      }
    }

    /** `approveSheet`. */
    method ApproveSheet(sheetId: string, approverId: string, now: string) returns (r: Option<InventorySheet>)
      modifies this
      ensures (Current(), r) == Transit(old(Current()), sheetId, ApproveBy(approverId, now)) && stored.Some?
    {
      var sheets := GetSheets();
      var index := IndexOfSheet(sheets, sheetId);
      var approver := FindUser(approverId);
      if index.Some? && sheets[index.value].status == UnderReview {
        var sheet := sheets[index.value].(status := Approved, approvedAt := Some(now),
                                          approvedBy := Some(approverId), approver := approver);
        assert sheet == Applied(sheets[index.value], ApproveBy(approverId, now));
        sheets := sheets[index.value := sheet];
        SaveSheets(sheets);
        r := Some(sheet);
      } else {
        r := None;
      }
    }
  }
}
