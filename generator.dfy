/** The template generator of src/store/storage.ts: the fixed, ordered list
    of technical locations a new sheet starts with, derived from the object's
    id and type. */
module TemplateGenerator {
  import opened Wrappers
  import opened Strings
  import opened Types

  /** `${objectId}-${type}-${i}`. */
  function LocationId(objectId: string, t: TechLocationType, i: nat): string {
    objectId + "-" + TechLocationTypeKey(t) + "-" + NatToString(i)
  }

  /** A freshly generated location: not inspected, no photos, no materials,
      and its own copy of the type's default characteristics. */
  function NewLocation(objectId: string, t: TechLocationType, i: nat, name: string): TechnicalLocation {
    TechnicalLocation(LocationId(objectId, t, i), objectId, t, name,
      TechLocationTypeConfig(t).defaultCharacteristics, None, false, None, [], [])
  }

  /** The locations a `for (let i = 1; i <= n; i++)` loop pushes, named
      `prefix` followed by the number. */
  function Numbered(objectId: string, t: TechLocationType, prefix: string, n: nat): (r: seq<TechnicalLocation>)
    ensures |r| == n
    ensures forall k :: 0 <= k < n ==> r[k] == NewLocation(objectId, t, k + 1, prefix + NatToString(k + 1))
  {
    if n == 0 then [] else Numbered(objectId, t, prefix, n - 1) + [NewLocation(objectId, t, n, prefix + NatToString(n))]
  }

  /** The locations a `names.forEach((name, i) => ...)` loop pushes, numbered
      from 1 and named `prefix` followed by the name. */
  function Named(objectId: string, t: TechLocationType, prefix: string, names: seq<string>): (r: seq<TechnicalLocation>)
    ensures |r| == |names|
    ensures forall k :: 0 <= k < |names| ==> r[k] == NewLocation(objectId, t, k + 1, prefix + names[k])
  {
    if names == [] then []
    else
      Named(objectId, t, prefix, names[..|names| - 1])
        + [NewLocation(objectId, t, |names|, prefix + names[|names| - 1])]
  }

  const SubstationBayNames: seq<string> := ["ВЛ-35кВ", "ВЛ-10кВ", "Секция 1", "Секция 2", "ТСН"]
  const TransformerNames: seq<string> := ["Т1", "Т2"]

  /** The rule table of `generateInitialTechLocations`, keyed by the object
      type as a string; any other string yields no locations. */
  function InitialTechLocations(objectId: string, objectType: string): seq<TechnicalLocation> {
    if objectType == "line" then
      Numbered(objectId, Support, "Опора №", 10) + Numbered(objectId, Span, "Пролет №", 9)
    else if objectType == "substation" then
      Named(objectId, Bay, "Ячейка ", SubstationBayNames)
    else if objectType == "transformer_substation" then
      Named(objectId, TechLocationType.Transformer, "Трансформатор ", TransformerNames)
        + Numbered(objectId, Bay, "Ячейка №", 6)
    else if objectType == "distribution_point" then
      Numbered(objectId, Feeder, "Фидер Ф-", 6)
    else []
  }

  /** The `for (let i = 1; i <= n; i++)` push loop. */
  method PushNumbered(locations: seq<TechnicalLocation>, objectId: string, t: TechLocationType, prefix: string, n: nat)
    returns (out: seq<TechnicalLocation>)
    ensures out == locations + Numbered(objectId, t, prefix, n)
  {
    out := locations;
    for i := 1 to n + 1
      invariant out == locations + Numbered(objectId, t, prefix, i - 1)
    {
      out := out + [NewLocation(objectId, t, i, prefix + NatToString(i))];
    }
  }

  /** The `names.forEach((name, i) => ...)` push loop. */
  method PushNamed(locations: seq<TechnicalLocation>, objectId: string, t: TechLocationType, prefix: string,
                   names: seq<string>)
    returns (out: seq<TechnicalLocation>)
    ensures out == locations + Named(objectId, t, prefix, names)
  {
    out := locations;
    for i := 0 to |names|
      invariant out == locations + Named(objectId, t, prefix, names[..i])
    {
      assert names[..i + 1][..i] == names[..i];
      out := out + [NewLocation(objectId, t, i + 1, prefix + names[i])];
    }
    assert names[..|names|] == names;
  }

  /** `generateInitialTechLocations` as the source writes it: push loops
      chosen by the object type. */
  method GenerateInitialTechLocations(objectId: string, objectType: string)
    returns (locations: seq<TechnicalLocation>)
    ensures locations == InitialTechLocations(objectId, objectType)
  {
    locations := [];
    if objectType == "line" {
      locations := PushNumbered(locations, objectId, Support, "Опора №", 10);
      locations := PushNumbered(locations, objectId, Span, "Пролет №", 9);
    } else if objectType == "substation" {
      locations := PushNamed(locations, objectId, Bay, "Ячейка ", SubstationBayNames);
    } else if objectType == "transformer_substation" {
      locations := PushNamed(locations, objectId, TechLocationType.Transformer, "Трансформатор ", TransformerNames);
      locations := PushNumbered(locations, objectId, Bay, "Ячейка №", 6);
    } else if objectType == "distribution_point" {
      locations := PushNumbered(locations, objectId, Feeder, "Фидер Ф-", 6);
    }
  }

  // ---- the rule table, entry by entry --------------------------------------

  /** A line: ten supports `Опора №1..10`, then nine spans `Пролет №1..9`. */
  lemma LineTemplate(objectId: string)
    ensures var r := InitialTechLocations(objectId, "line");
      && |r| == 19
      && (forall k :: 0 <= k < 10 ==>
            r[k].locationType == Support && r[k].id == objectId + "-support-" + NatToString(k + 1)
            && r[k].name == "Опора №" + NatToString(k + 1))
      && (forall k :: 10 <= k < 19 ==>
            r[k].locationType == Span && r[k].id == objectId + "-span-" + NatToString(k - 9)
            && r[k].name == "Пролет №" + NatToString(k - 9))
  {
    var r := InitialTechLocations(objectId, "line");
    forall k | 10 <= k < 19
      ensures r[k] == NewLocation(objectId, Span, k - 9, "Пролет №" + NatToString(k - 9))
    {
      assert r[k] == Numbered(objectId, Span, "Пролет №", 9)[k - 10];
    }
  }

  /** A substation: five bays in the fixed order of SubstationBayNames. */
  lemma SubstationTemplate(objectId: string)
    ensures var r := InitialTechLocations(objectId, "substation");
      && |r| == 5
      && (forall k :: 0 <= k < 5 ==>
            r[k].locationType == Bay && r[k].id == objectId + "-bay-" + NatToString(k + 1)
            && r[k].name == "Ячейка " + SubstationBayNames[k])
  {
  }

  /** A transformer substation: transformers Т1, Т2, then bays `Ячейка №1..6`. */
  lemma TransformerSubstationTemplate(objectId: string)
    ensures var r := InitialTechLocations(objectId, "transformer_substation");
      && |r| == 8
      && (forall k :: 0 <= k < 2 ==>
            r[k].locationType == TechLocationType.Transformer
            && r[k].id == objectId + "-transformer-" + NatToString(k + 1)
            && r[k].name == "Трансформатор " + TransformerNames[k])
      && (forall k :: 2 <= k < 8 ==>
            r[k].locationType == Bay && r[k].id == objectId + "-bay-" + NatToString(k - 1)
            && r[k].name == "Ячейка №" + NatToString(k - 1))
  {
    var r := InitialTechLocations(objectId, "transformer_substation");
    forall k | 2 <= k < 8
      ensures r[k] == NewLocation(objectId, Bay, k - 1, "Ячейка №" + NatToString(k - 1))
    {
      assert r[k] == Numbered(objectId, Bay, "Ячейка №", 6)[k - 2];
    }
  }

  /** A distribution point: six feeders `Фидер Ф-1..6`. */
  lemma DistributionPointTemplate(objectId: string)
    ensures var r := InitialTechLocations(objectId, "distribution_point");
      && |r| == 6
      && (forall k :: 0 <= k < 6 ==>
            r[k].locationType == Feeder && r[k].id == objectId + "-feeder-" + NatToString(k + 1)
            && r[k].name == "Фидер Ф-" + NatToString(k + 1))
  {
  }

  /** Any string that is not one of the four object-type keys yields nothing. */
  lemma UnknownTypeTemplate(objectId: string, objectType: string)
    ensures ParseObjectType(objectType) == None <==> InitialTechLocations(objectId, objectType) == []
  {
    if ParseObjectType(objectType).Some? {
      var t := ParseObjectType(objectType).value;
      assert objectType == ObjectTypeKey(t);
      assert |InitialTechLocations(objectId, objectType)| > 0;
    }
  }

  // ---- properties shared by every generated location ------------------------

  /** Freshly generated: belongs to the object, not inspected (and so no
      inspection time), no comment, no photos, no materials, and
      characteristics equal to its type's default template. */
  predicate IsFresh(loc: TechnicalLocation, objectId: string) {
    && loc.objectId == objectId
    && !loc.inspected && loc.inspectedAt == None && loc.comment == None
    && loc.photos == [] && loc.materials == []
    && loc.characteristics == TechLocationTypeConfig(loc.locationType).defaultCharacteristics
  }

  lemma GeneratedLocationsFresh(objectId: string, objectType: string)
    ensures forall loc :: loc in InitialTechLocations(objectId, objectType) ==> IsFresh(loc, objectId)
  {
  }

  /** Every generated location has a type the object type allows. */
  lemma GeneratedTypesAllowed(objectId: string, t: ObjectType)
    ensures forall loc :: loc in InitialTechLocations(objectId, ObjectTypeKey(t)) ==>
      loc.locationType in ObjectTypeConfig(t).availableTechLocationTypes
  {
  }

  // ---- ids ----------------------------------------------------------------

  predicate NoDash(s: string) {
    forall i :: 0 <= i < |s| ==> s[i] != '-'
  }

  lemma KeysHaveNoDash(t: TechLocationType)
    ensures NoDash(TechLocationTypeKey(t))
  {
  }

  /** `-key-digits` splits back into its key and its digits when the key
      has no dash. */
  lemma {:induction false} DashedPairSplits(p: string, k1: string, d1: string, k2: string, d2: string)
    requires NoDash(k1) && NoDash(k2)
    requires p + "-" + k1 + "-" + d1 == p + "-" + k2 + "-" + d2
    ensures k1 == k2 && d1 == d2
  {
    var a, b := p + "-" + k1 + "-" + d1, p + "-" + k2 + "-" + d2;
    var n := |p|;
    // The second dash sits right after the key, and keys hold no dash.
    assert |k1| == |k2| by {
      assert a[n + 1 + |k1|] == '-' && b[n + 1 + |k2|] == '-';
      assert forall i :: n + 1 <= i < n + 1 + |k1| ==> a[i] == k1[i - n - 1];
      assert forall i :: n + 1 <= i < n + 1 + |k2| ==> b[i] == k2[i - n - 1];
    }
    assert k1 == a[n + 1..n + 1 + |k1|] && k2 == b[n + 1..n + 1 + |k2|];
    assert d1 == a[n + 2 + |k1|..] && d2 == b[n + 2 + |k2|..];
  }

  lemma TechLocationTypeKeyInjective(t1: TechLocationType, t2: TechLocationType)
    ensures TechLocationTypeKey(t1) == TechLocationTypeKey(t2) ==> t1 == t2
  {
    TechLocationTypeKeyRoundTrip(t1);
    TechLocationTypeKeyRoundTrip(t2);
  }

  /** The id determines the type and the number it was built from. */
  lemma LocationIdInjective(objectId: string, t1: TechLocationType, n1: nat, t2: TechLocationType, n2: nat)
    ensures LocationId(objectId, t1, n1) == LocationId(objectId, t2, n2) <==> t1 == t2 && n1 == n2
  {
    if LocationId(objectId, t1, n1) == LocationId(objectId, t2, n2) {
      KeysHaveNoDash(t1);
      KeysHaveNoDash(t2);
      DashedPairSplits(objectId, TechLocationTypeKey(t1), NatToString(n1), TechLocationTypeKey(t2), NatToString(n2));
      TechLocationTypeKeyInjective(t1, t2);
      NatToStringInjective(n1, n2);
    }
  }

  /** A list whose ids are built from pairwise different (type, number)
      pairs has pairwise different ids. */
  lemma IdsFromDistinctPairs(objectId: string, r: seq<TechnicalLocation>, ts: seq<TechLocationType>, ns: seq<nat>)
    requires |ts| == |r| && |ns| == |r|
    requires forall k :: 0 <= k < |r| ==> r[k].id == LocationId(objectId, ts[k], ns[k])
    requires forall i, j :: 0 <= i < j < |r| ==> ts[i] != ts[j] || ns[i] != ns[j]
    ensures forall i, j :: 0 <= i < j < |r| ==> r[i].id != r[j].id
  {
    forall i, j | 0 <= i < j < |r| ensures r[i].id != r[j].id {
      LocationIdInjective(objectId, ts[i], ns[i], ts[j], ns[j]);
    }
  }

  /** No two generated locations share an id, so selecting a subset by id
      picks out locations unambiguously. */
  lemma GeneratedIdsDistinct(objectId: string, objectType: string)
    ensures var r := InitialTechLocations(objectId, objectType);
      forall i, j :: 0 <= i < j < |r| ==> r[i].id != r[j].id
  {
    if objectType == "line" {
      LineIdsDistinct(objectId);
    } else if objectType == "substation" {
      SubstationIdsDistinct(objectId);
    } else if objectType == "transformer_substation" {
      TransformerSubstationIdsDistinct(objectId);
    } else if objectType == "distribution_point" {
      DistributionPointIdsDistinct(objectId);
    }
  }

  lemma LineIdsDistinct(objectId: string)
    ensures var r := InitialTechLocations(objectId, "line");
      forall i, j :: 0 <= i < j < |r| ==> r[i].id != r[j].id
  {
    var r := InitialTechLocations(objectId, "line");
    LineTemplate(objectId);
    var ts := seq(19, k requires 0 <= k < 19 => if k < 10 then Support else Span);
    var ns := seq(19, k requires 0 <= k < 19 => if k < 10 then k + 1 else k - 9);
    IdsFromDistinctPairs(objectId, r, ts, ns);
  }

  lemma SubstationIdsDistinct(objectId: string)
    ensures var r := InitialTechLocations(objectId, "substation");
      forall i, j :: 0 <= i < j < |r| ==> r[i].id != r[j].id
  {
    var r := InitialTechLocations(objectId, "substation");
    SubstationTemplate(objectId);
    IdsFromDistinctPairs(objectId, r, seq(5, _ => Bay), seq(5, k requires 0 <= k < 5 => k + 1));
  }

  lemma TransformerSubstationIdsDistinct(objectId: string)
    ensures var r := InitialTechLocations(objectId, "transformer_substation");
      forall i, j :: 0 <= i < j < |r| ==> r[i].id != r[j].id
  {
    var r := InitialTechLocations(objectId, "transformer_substation");
    TransformerSubstationTemplate(objectId);
    var ts := seq(8, k requires 0 <= k < 8 => if k < 2 then TechLocationType.Transformer else Bay);
    var ns := seq(8, k requires 0 <= k < 8 => if k < 2 then k + 1 else k - 1);
    IdsFromDistinctPairs(objectId, r, ts, ns);
  }

  lemma DistributionPointIdsDistinct(objectId: string)
    ensures var r := InitialTechLocations(objectId, "distribution_point");
      forall i, j :: 0 <= i < j < |r| ==> r[i].id != r[j].id
  {
    var r := InitialTechLocations(objectId, "distribution_point");
    DistributionPointTemplate(objectId);
    IdsFromDistinctPairs(objectId, r, seq(6, _ => Feeder), seq(6, k requires 0 <= k < 6 => k + 1));
  }
}
