/** The sheet page of src/pages/SheetDetail/SheetDetail.jsx: who may do what
    to a sheet, the guard before a return, and the edits of a sheet's list of
    technical locations (which build a new list and leave the old one alone). */
module SheetDetail {
  import opened Wrappers
  import opened Strings
  import opened Lists
  import opened Types
  import opened TemplateGenerator
  import opened Storage

  // ---- permission predicates ----------------------------------------------------

  /** `canEdit`: the assigned executor while the sheet is in work or
      returned, or any master while it is under review. */
  predicate CanEdit(sheet: Option<InventorySheet>, user: Option<User>) {
    if sheet.None? || user.None? then false
    else if user.value.role == Executor && (sheet.value.status == InWork || sheet.value.status == Returned)
         && sheet.value.executorId == user.value.id then true
    else user.value.role == Master && sheet.value.status == UnderReview
  }

  predicate CanAccept(sheet: Option<InventorySheet>, user: Option<User>) {
    sheet.Some? && user.Some? &&
    sheet.value.status == Draft && user.value.role == Executor && sheet.value.executorId == user.value.id
  }

  predicate CanSubmit(sheet: Option<InventorySheet>, user: Option<User>) {
    sheet.Some? && user.Some? &&
    (sheet.value.status == InWork || sheet.value.status == Returned)
    && user.value.role == Executor && sheet.value.executorId == user.value.id
  }

  predicate CanReturn(sheet: Option<InventorySheet>, user: Option<User>) {
    sheet.Some? && user.Some? && sheet.value.status == UnderReview && user.value.role == Master
  }

  predicate CanApprove(sheet: Option<InventorySheet>, user: Option<User>) {
    sheet.Some? && user.Some? && sheet.value.status == UnderReview && user.value.role == Master
  }

  /** `isReadOnly`; the page computes it but never consults it. */
  predicate IsReadOnly(sheet: Option<InventorySheet>) {
    sheet.None? || sheet.value.status == Approved || sheet.value.status == UnderReview
  }

  // ---- the reference the predicates are read against --------------------------------

  /** Who performs each step of the lifecycle. */
  function ActorOf(a: Action): UserRole {
    match a
    case Accept => Executor
    case Submit => Executor
    case Return => Master
    case Approve => Master
  }

  /** The executor's steps are reserved for the executor named on the sheet;
      any master may review. */
  predicate NeedsAssignment(a: Action) {
    ActorOf(a) == Executor
  }

  /** A step is permitted when the lifecycle table has the edge and the user
      is the one who takes it. */
  predicate Permitted(s: InventorySheet, u: User, a: Action) {
    && NextStatus(s.status, a).Some?
    && u.role == ActorOf(a)
    && (NeedsAssignment(a) ==> s.executorId == u.id)
  }

  /** The button each predicate shows, as an action. */
  predicate Allows(sheet: Option<InventorySheet>, user: Option<User>, a: Action) {
    match a
    case Accept => CanAccept(sheet, user)
    case Submit => CanSubmit(sheet, user)
    case Return => CanReturn(sheet, user)
    case Approve => CanApprove(sheet, user)
  }

  /** Each of the four predicates holds exactly when the step is permitted
      by the lifecycle table and the role assignment; so with no sheet or
      no user nothing is allowed. */
  lemma AllowsExactlyPermitted(sheet: Option<InventorySheet>, user: Option<User>, a: Action)
    ensures Allows(sheet, user, a) <==> sheet.Some? && user.Some? && Permitted(sheet.value, user.value, a)
  {
  }

  /** What a predicate allows, the storage function will carry out: the
      status gate of storage.ts agrees with the page's predicate. */
  lemma AllowsImpliesGate(sheet: InventorySheet, user: Option<User>, tr: Transition)
    requires Allows(Some(sheet), user, ActionOf(tr))
    ensures StatusGate(sheet.status, tr)
  {
    GateMatchesTable(sheet, tr);
  }

  /** Nothing is allowed, and nothing may be edited, once a sheet is approved. */
  lemma ApprovedIsFrozen(sheet: InventorySheet, user: Option<User>, a: Action)
    requires sheet.status == Approved
    ensures !Allows(Some(sheet), user, a) && !CanEdit(Some(sheet), user) && IsReadOnly(Some(sheet))
  {
  }

  /** Return and approve are offered to exactly the same users. */
  lemma ReturnSameAsApprove(sheet: Option<InventorySheet>, user: Option<User>)
    ensures CanReturn(sheet, user) <==> CanApprove(sheet, user)
  {
  }

  /** An executor can edit exactly when they can submit, and edits by a
      master are exactly the review window. */
  lemma EditWindow(sheet: Option<InventorySheet>, user: Option<User>)
    ensures user.Some? && user.value.role == Executor ==> (CanEdit(sheet, user) <==> CanSubmit(sheet, user))
    ensures user.Some? && user.value.role == Master ==> (CanEdit(sheet, user) <==> CanApprove(sheet, user))
  {
  }

  /** `isReadOnly` holds exactly for the two statuses in which the executor
      has handed the sheet over (or no sheet is loaded); it disagrees with
      `canEdit` for a master under review. */
  lemma ReadOnlyStatuses(sheet: InventorySheet, master: User)
    requires master.role == Master
    ensures IsReadOnly(Some(sheet)) <==> sheet.status in {Approved, UnderReview}
    ensures sheet.status == UnderReview ==> IsReadOnly(Some(sheet)) && CanEdit(Some(sheet), Some(master))
  {
  }

  // ---- the guarded steps ----------------------------------------------------------

  datatype Refusal = NotFound | Forbidden | CommentRequired

  /** `handleReturn`: a comment that trims to nothing is refused before the
      store is called; otherwise the comment goes to `returnSheet` as typed. */
  method HandleReturn(store: SheetStore, sheetId: string, comment: string, now: string)
    returns (r: Option<InventorySheet>)
    modifies store
    ensures Trim(comment) == [] ==> r.None? && store.stored == old(store.stored)
    ensures Trim(comment) != [] ==>
      (store.Current(), r) == Transit(old(store.Current()), sheetId, ReturnWith(comment, now)) && store.stored.Some?
  {
    if Trim(comment) == [] {
      r := None;
      return;
    }
    r := store.ReturnSheet(sheetId, comment, now);
  }

  /** The transition each handler hands to the store: the typed comment for
      a return, and the signed-in user as the approver. */
  function StepTransition(a: Action, user: User, comment: string, now: string): Transition {
    match a
    case Accept => AcceptAt(now)
    case Submit => SubmitAt(now)
    case Return => ReturnWith(comment, now)
    case Approve => ApproveBy(user.id, now)
  }

  /** A step as the page takes it on a loaded list: the sheet is looked up,
      the step is offered only when the page's predicate allows it, a return
      needs a comment that is not blank, and then the storage function runs. */
  function Perform(sheets: seq<InventorySheet>, sheetId: string, user: Option<User>, a: Action,
                   comment: string, now: string)
    : Result<(seq<InventorySheet>, InventorySheet), Refusal>
  {
    var sheet := SheetById(sheets, sheetId);
    if sheet.None? then Failure(NotFound)
    else if user.None? || !Allows(sheet, user, a) then Failure(Forbidden)
    else if a == Return && Trim(comment) == [] then Failure(CommentRequired)
    else
      var (after, r) := Transit(sheets, sheetId, StepTransition(a, user.value, comment, now));
      if r.Some? then Success((after, r.value)) else Failure(NotFound)
  }

  /** The lookup the page makes and the one the store makes land on the same
      sheet. */
  lemma LookupsAgree(sheets: seq<InventorySheet>, id: string)
    ensures SheetById(sheets, id).Some? <==> IndexOfSheet(sheets, id).Some?
    ensures SheetById(sheets, id).Some? ==> SheetById(sheets, id).value == sheets[IndexOfSheet(sheets, id).value]
  {
  }

  /** A step the page allows never fails in the store: it succeeds exactly
      when the sheet exists, the user is permitted and (for a return) the
      comment is not blank; on success the user holds the role the step
      needs, the sheet has moved along an edge of the lifecycle table, and
      the list is what the storage function wrote. */
  lemma PerformSound(sheets: seq<InventorySheet>, sheetId: string, user: Option<User>, a: Action,
                     comment: string, now: string)
    ensures var res := Perform(sheets, sheetId, user, a, comment, now);
      var sheet := SheetById(sheets, sheetId);
      && (res.Success? <==>
            && sheet.Some? && user.Some? && Permitted(sheet.value, user.value, a)
            && !(a == Return && Trim(comment) == []))
      && (res.Success? ==>
            && user.value.role == ActorOf(a)
            && NextStatus(sheet.value.status, a) == Some(res.value.1.status)
            && (res.value.0, Some(res.value.1)) == Transit(sheets, sheetId, StepTransition(a, user.value, comment, now))
            && (a == Return ==> res.value.1.returnComment == Some(comment))
            && (a == Approve ==>
                  res.value.1.approvedBy == Some(user.value.id) && res.value.1.approver == FindUser(user.value.id)))
  {
    var sheet := SheetById(sheets, sheetId);
    LookupsAgree(sheets, sheetId);
    AllowsExactlyPermitted(sheet, user, a);
    if sheet.Some? && user.Some? {
      GateMatchesTable(sheet.value, StepTransition(a, user.value, comment, now));
    }
  }

  // ---- edits of the location list -----------------------------------------------------

  /** The field groups the page changes through `updateTechLocation`. */
  datatype LocationPatch =
    | SetInspection(inspected: bool, inspectedAt: Option<string>)
    | SetCharacteristics(characteristics: seq<Characteristic>)
    | SetPhotos(photos: seq<Photo>)
    | SetMaterials(materials: seq<Material>)
    | SetComment(comment: string)

  /** `{ ...tl, ...updates }`. */
  function ApplyPatch(tl: TechnicalLocation, patch: LocationPatch): TechnicalLocation {
    match patch
    case SetInspection(inspected, at) => tl.(inspected := inspected, inspectedAt := at)
    case SetCharacteristics(cs) => tl.(characteristics := cs)
    case SetPhotos(ps) => tl.(photos := ps)
    case SetMaterials(ms) => tl.(materials := ms)
    case SetComment(c) => tl.(comment := Some(c))
  }

  /** `updateTechLocation`: every location with the id is patched. */
  function UpdateTechLocation(locs: seq<TechnicalLocation>, id: string, patch: LocationPatch)
    : (r: seq<TechnicalLocation>)
    ensures |r| == |locs|
    ensures forall i :: 0 <= i < |locs| ==> r[i] == if locs[i].id == id then ApplyPatch(locs[i], patch) else locs[i]
  {
    seq(|locs|, i requires 0 <= i < |locs| => if locs[i].id == id then ApplyPatch(locs[i], patch) else locs[i])
  }

  /** A patch never changes which location is which: ids, order, object and
      type stay, and a list without the id is returned as it was. */
  lemma UpdateKeepsIdentity(locs: seq<TechnicalLocation>, id: string, patch: LocationPatch)
    ensures var r := UpdateTechLocation(locs, id, patch);
      && (forall i :: 0 <= i < |locs| ==>
            r[i].id == locs[i].id && r[i].objectId == locs[i].objectId && r[i].locationType == locs[i].locationType
            && r[i].name == locs[i].name)
      && ((forall i :: 0 <= i < |locs| ==> locs[i].id != id) ==> r == locs)
  {
    var r := UpdateTechLocation(locs, id, patch);
    if forall i :: 0 <= i < |locs| ==> locs[i].id != id {
      assert forall i :: 0 <= i < |locs| ==> r[i] == locs[i];
    }
  }

  /** `deleteTechLocation`. */
  function DeleteTechLocation(locs: seq<TechnicalLocation>, id: string): seq<TechnicalLocation> {
    Filter(locs, (tl: TechnicalLocation) => tl.id != id)
  }

  lemma DeleteTechLocationEffect(locs: seq<TechnicalLocation>, id: string)
    ensures var r := DeleteTechLocation(locs, id);
      && (forall tl :: tl in r <==> tl in locs && tl.id != id)
      && (forall tl :: multiset(r)[tl] == if tl.id != id then multiset(locs)[tl] else 0)
      && IsSubsequence(r, locs)
      && |r| <= |locs|
  {
    FilterCounts(locs, (tl: TechnicalLocation) => tl.id != id);
  }

  /** The type a new location gets: the object's first allowed type, or
      `support` when the sheet has no object or the object allows none. */
  function NewLocationType(obj: Option<PowerObject>): TechLocationType {
    if obj.Some? && |obj.value.availableTechLocationTypes| > 0 then obj.value.availableTechLocationTypes[0]
    else Support
  }

  /** `addTechLocation`: `newId` stands for `new-${Date.now()}`. */
  function AddTechLocation(sheet: InventorySheet, newId: string): InventorySheet {
    var t := NewLocationType(sheet.powerObject);
    var loc := TechnicalLocation(newId, sheet.objectId, t,
      "Новое техническое место " + NatToString(|sheet.techLocations| + 1),
      TechLocationTypeConfig(t).defaultCharacteristics, None, false, None, [], []);
    sheet.(techLocations := sheet.techLocations + [loc])
  }

  /** Adding keeps every existing location and appends one fresh location of
      a type the object allows (when it allows any), numbered after the
      existing ones; the rest of the sheet is untouched. */
  lemma AddTechLocationEffect(sheet: InventorySheet, newId: string)
    ensures var r := AddTechLocation(sheet, newId);
      var n := |sheet.techLocations|;
      && |r.techLocations| == n + 1
      && r.techLocations[..n] == sheet.techLocations
      && r == sheet.(techLocations := r.techLocations)
      && var loc := r.techLocations[n];
         && loc.id == newId && IsFresh(loc, sheet.objectId)
         && loc.name == "Новое техническое место " + NatToString(n + 1)
         && (sheet.powerObject.Some? && sheet.powerObject.value.availableTechLocationTypes != [] ==>
               loc.locationType in sheet.powerObject.value.availableTechLocationTypes)
  {
  }

  /** The test `tl => tl.id === techLocationId`. */
  function HasId(id: string): TechnicalLocation -> bool {
    (tl: TechnicalLocation) => tl.id == id
  }

  /** `toggleInspected`: the first location with the id decides the new
      flag, which is then written to every location with the id; the time is
      set when the flag becomes true and cleared when it becomes false. */
  function ToggleInspected(locs: seq<TechnicalLocation>, id: string, now: string): seq<TechnicalLocation> {
    match Find(locs, HasId(id))
    case None => locs
    case Some(tl) =>
      UpdateTechLocation(locs, id, SetInspection(!tl.inspected, if !tl.inspected then Some(now) else None))
  }

  /** One toggle flips the first match and keeps the inspection time
      present exactly when the location is inspected. */
  lemma ToggleEffect(locs: seq<TechnicalLocation>, id: string, now: string)
    ensures var r := ToggleInspected(locs, id, now);
      && |r| == |locs|
      && (FindIndex(locs, HasId(id)).None? ==> r == locs)
      && (forall i :: 0 <= i < |locs| && locs[i].id != id ==> r[i] == locs[i])
      && (forall i :: 0 <= i < |locs| ==> r[i].id == locs[i].id)
      && (forall i :: 0 <= i < |locs| && locs[i].id == id ==>
            && r[i].inspectedAt.Some? == r[i].inspected
            && r[i].photos == locs[i].photos && r[i].materials == locs[i].materials)
      && (match FindIndex(locs, HasId(id))
          case None => true
          case Some(k) => r[k].inspected == !locs[k].inspected)
  {
  }

  /** The first location with an id depends only on the ids along the list. */
  lemma {:induction false} SameIdsSameFirst(a: seq<TechnicalLocation>, b: seq<TechnicalLocation>, id: string)
    requires |a| == |b| && forall i :: 0 <= i < |a| ==> a[i].id == b[i].id
    ensures FindIndex(a, HasId(id)) == FindIndex(b, HasId(id))
    decreases |a|
  {
    if a != [] && a[0].id != id {
      SameIdsSameFirst(a[1..], b[1..], id);
    }
  }

  /** Toggling twice gives every location with the id the flag the first of
      them had (so with unique ids the flag is restored), with no time when
      that flag is false and the second toggle's time when it is true. */
  lemma ToggleTwice(locs: seq<TechnicalLocation>, id: string, t1: string, t2: string)
    ensures var r := ToggleInspected(ToggleInspected(locs, id, t1), id, t2);
      && |r| == |locs|
      && (forall i :: 0 <= i < |locs| && locs[i].id != id ==> r[i] == locs[i])
      && (match FindIndex(locs, HasId(id))
          case None => r == locs
          case Some(k) =>
            forall i :: 0 <= i < |locs| && locs[i].id == id ==>
              r[i] == locs[i].(inspected := locs[k].inspected,
                               inspectedAt := if locs[k].inspected then Some(t2) else None))
  {
    var once := ToggleInspected(locs, id, t1);
    ToggleEffect(locs, id, t1);
    ToggleEffect(once, id, t2);
    SameIdsSameFirst(once, locs, id);
  }

  /** Every edit of the page keeps a well-kept location list well kept,
      provided a photo list it writes respects the cap. */
  lemma ToggleKeepsLocationsWellKept(locs: seq<TechnicalLocation>, id: string, now: string)
    requires forall i :: 0 <= i < |locs| ==> LocationInvariant(locs[i])
    ensures var r := ToggleInspected(locs, id, now);
      forall i :: 0 <= i < |r| ==> LocationInvariant(r[i])
  {
    ToggleEffect(locs, id, now);
  }

  /** The characteristic editor: the value at `idx` replaced by the typed text. */
  function SetCharacteristicValue(cs: seq<Characteristic>, idx: nat, text: string): (r: seq<Characteristic>)
    requires idx < |cs|
    ensures |r| == |cs| && r[idx].value == Str(text)
    ensures forall i :: 0 <= i < |cs| ==> r[i].key == cs[i].key && r[i].title == cs[i].title && r[i].unit == cs[i].unit
    ensures forall i :: 0 <= i < |cs| && i != idx ==> r[i] == cs[i]
  {
    cs[idx := cs[idx].(value := Str(text))]
  }

  /** Editing a value keeps a template-shaped list template-shaped. */
  lemma SetValueKeepsKeys(cs: seq<Characteristic>, idx: nat, text: string)
    requires idx < |cs| && WellFormedTemplate(cs)
    ensures var r := SetCharacteristicValue(cs, idx, text);
      forall i, j :: 0 <= i < j < |r| ==> r[i].key != r[j].key
  {
  }
}
