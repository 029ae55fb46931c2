/** The material list of one technical location, as
    src/components/MaterialManager/MaterialManager.jsx edits it: every edit
    builds a new list for the caller. */
module MaterialManager {
  import opened Wrappers
  import opened Lists
  import opened Types

  /** The bounds of the quantity input. */
  const MinQuantity: int := 1
  const MaxQuantity: int := 9999

  /** The material types offered for a location type given by its key.
      An absent or empty key offers every material type; a key that names
      no location type offers none. */
  function AvailableMaterialTypes(techLocationType: Option<string>): (r: seq<MaterialType>)
    ensures techLocationType.None? || techLocationType == Some("") ==> r == AllMaterialTypes
    ensures forall m :: m in r ==> m in AllMaterialTypes
  {
    if techLocationType.None? || techLocationType.value == "" then AllMaterialTypes
    else match ParseTechLocationType(techLocationType.value)
      case None => []
      case Some(t) =>
        AvailableMaterialsWellFormed(t);
        TechLocationTypeConfig(t).availableMaterials
  }

  /** Given the key of a real location type, the offer is that type's list
      from the configuration, and never empty; any other non-empty key gets
      the empty offer. */
  lemma AvailableForKnownType(t: TechLocationType)
    ensures AvailableMaterialTypes(Some(TechLocationTypeKey(t))) == TechLocationTypeConfig(t).availableMaterials
    ensures |AvailableMaterialTypes(Some(TechLocationTypeKey(t)))| >= 1
  {
    TechLocationTypeKeyRoundTrip(t);
    AvailableMaterialsWellFormed(t);
  }

  lemma AvailableForUnknownKey(key: string)
    requires key != "" && ParseTechLocationType(key).None?
    ensures AvailableMaterialTypes(Some(key)) == []
  {
  }

  /** `handleDelete`. */
  function DeleteMaterial(materials: seq<Material>, id: string): seq<Material> {
    Filter(materials, (m: Material) => m.id != id)
  }

  lemma DeleteMaterialEffect(materials: seq<Material>, id: string)
    ensures var r := DeleteMaterial(materials, id);
      && (forall m :: m in r <==> m in materials && m.id != id)
      && (forall m :: multiset(r)[m] == if m.id != id then multiset(materials)[m] else 0)
      && IsSubsequence(r, materials)
  {
    FilterCounts(materials, (m: Material) => m.id != id);
  }

  /** The two form fields: the type and the quantity. */
  datatype FormValues = FormValues(materialType: MaterialType, quantity: int)

  /** `handleSubmit`: with a material being edited, every entry with its id
      takes the form's type and quantity and the unit of that type; the name
      is left as it was. Without one, a new material is appended, named and
      measured after its type and marked as added during the inventory.
      `newId` stands for `Date.now().toString()`. */
  function HandleSubmit(materials: seq<Material>, editing: Option<Material>, values: FormValues, newId: string)
    : seq<Material>
  {
    var config := MaterialTypeConfig(values.materialType);
    if editing.Some? then
      seq(|materials|, i requires 0 <= i < |materials| =>
        if materials[i].id == editing.value.id
        then materials[i].(materialType := values.materialType, quantity := values.quantity, unit := config.unit)
        else materials[i])
    else
      materials + [Material(newId, values.materialType, config.title, values.quantity, config.unit, None, true)]
  }

  /** Adding appends exactly one entry, built from the configuration. */
  lemma AddEffect(materials: seq<Material>, values: FormValues, newId: string)
    ensures var r := HandleSubmit(materials, None, values, newId);
      && |r| == |materials| + 1 && r[..|materials|] == materials
      && var m := r[|materials|];
         && m.id == newId && m.materialType == values.materialType && m.quantity == values.quantity
         && m.name == MaterialTypeConfig(values.materialType).title
         && m.unit == MaterialTypeConfig(values.materialType).unit
         && m.addedDuringInventory
  {
  }

  /** Editing keeps the length and every other entry, and on the edited
      ones changes only type, quantity and unit. */
  lemma EditEffect(materials: seq<Material>, editing: Material, values: FormValues, newId: string)
    ensures var r := HandleSubmit(materials, Some(editing), values, newId);
      && |r| == |materials|
      && (forall i :: 0 <= i < |materials| && materials[i].id != editing.id ==> r[i] == materials[i])
      && (forall i :: 0 <= i < |materials| && materials[i].id == editing.id ==>
            r[i] == materials[i].(materialType := values.materialType, quantity := values.quantity,
                                  unit := MaterialTypeConfig(values.materialType).unit))
  {
  }

  /** A material as the form can produce it: its unit is the one configured
      for its type and its quantity lies in the input's range. */
  predicate WellKept(m: Material) {
    m.unit == MaterialTypeConfig(m.materialType).unit && MinQuantity <= m.quantity <= MaxQuantity
  }

  /** The quantity input: a typed number is brought into the range. */
  function ClampQuantity(q: int): (r: int)
    ensures MinQuantity <= r <= MaxQuantity
    ensures MinQuantity <= q <= MaxQuantity ==> r == q
    ensures q < MinQuantity ==> r == MinQuantity
    ensures q > MaxQuantity ==> r == MaxQuantity
  {
    if q < MinQuantity then MinQuantity else if q > MaxQuantity then MaxQuantity else q
  }

  /** Submitting what the form allows keeps a list of well-kept materials
      well kept, and keeps every type within what the location offers when
      the chosen type is one it offers. */
  lemma {:induction false} SubmitKeepsWellKept(materials: seq<Material>, editing: Option<Material>,
                                               values: FormValues, newId: string, offered: seq<MaterialType>)
    requires forall i :: 0 <= i < |materials| ==> WellKept(materials[i])
    requires MinQuantity <= values.quantity <= MaxQuantity
    ensures var r := HandleSubmit(materials, editing, values, newId);
      forall i :: 0 <= i < |r| ==> WellKept(r[i])
    ensures values.materialType in offered && (forall i :: 0 <= i < |materials| ==> materials[i].materialType in offered) ==>
      var r := HandleSubmit(materials, editing, values, newId);
      forall i :: 0 <= i < |r| ==> r[i].materialType in offered
  {
    var r := HandleSubmit(materials, editing, values, newId);
    if editing.Some? {
      EditEffect(materials, editing.value, values, newId);
    } else {
      AddEffect(materials, values, newId);
      assert forall i :: 0 <= i < |materials| ==> r[i] == materials[i];
    }
  }

  lemma DeleteKeepsWellKept(materials: seq<Material>, id: string)
    requires forall m :: m in materials ==> WellKept(m)
    ensures forall m :: m in DeleteMaterial(materials, id) ==> WellKept(m)
  {
  }
}
