/** The shipping settings of src/pages/admin/shipping.jsx: two id-keyed lists, the Abuja
    delivery zones and the inter-state rates, with one shared edit slot. `editingItem` is
    a copy of the entry being edited tagged with its list, and `newItem` the draft the
    inputs change; saving writes the draft over the entries with the edited id. */
module AdminShipping {
  import opened Js
  import Seqs

  datatype Zone = Zone(id: int, name: string, areas: seq<string>, price: int, timeframe: string)

  /** A rate's price is whatever `parseInt` made of the input, NaN included. */
  datatype Rate = Rate(id: int, state: string, price: Num, timeframe: string, courier: string)

  /** The `type` tag: 'abuja' or 'interstate'. */
  datatype ListType = Abuja | Interstate

  /** `editingItem`: the entry being edited and the list it belongs to. */
  datatype Editing = EditingZone(zone: Zone) | EditingRate(rate: Rate)

  /** `newItem`: `{}` or a copy of a zone or a rate. */
  datatype Draft = NoDraft | ZoneDraft(zone: Zone) | RateDraft(rate: Rate)

  const DefaultCourier := "GIG Logistics"
  const AreaSeparator := ", "

  function BlankZone(id: int): Zone {
    Zone(id, "", [], 0, "")
  }

  function BlankRate(id: int): Rate {
    Rate(id, "", Int(0), "", DefaultCourier)
  }

  function EditedId(e: Editing): int {
    match e
    case EditingZone(z) => z.id
    case EditingRate(r) => r.id
  }

  /** `list.map(x => x.id === id ? { ...draft } : x)` */
  function ReplaceZone(zones: seq<Zone>, id: int, d: Zone): seq<Zone> {
    Seqs.UpdateWhere(zones, (z: Zone) => z.id == id, (z: Zone) => d)
  }

  function ReplaceRate(rates: seq<Rate>, id: int, d: Rate): seq<Rate> {
    Seqs.UpdateWhere(rates, (r: Rate) => r.id == id, (r: Rate) => d)
  }

  /** `list.filter(x => x.id !== id)` */
  function DeleteZone(zones: seq<Zone>, id: int): seq<Zone> {
    Seqs.Filter(zones, (z: Zone) => z.id != id)
  }

  function DeleteRate(rates: seq<Rate>, id: int): seq<Rate> {
    Seqs.Filter(rates, (r: Rate) => r.id != id)
  }

  /** The areas input: `value.split(', ').filter(area => area.trim())`. */
  function ParseAreas(text: string): (r: seq<string>)
    ensures forall i :: 0 <= i < |r| ==> Trim(r[i]) != ""
  {
    Seqs.Filter(Split(text, AreaSeparator), (a: string) => Trim(a) != "")
  }

  /** The zone price input: `parseInt(value) || 0`. */
  function ParseZonePrice(text: string): (r: int)
    ensures ParseInt(text).NaN? ==> r == 0
    ensures ParseInt(text).Int? ==> r == ParseInt(text).n
  {
    match ParseInt(text)
    case NaN => 0
    case Int(n) => if n != 0 then n else 0
  }

  /** The draft matches the edit slot: both empty, or a copy of the same kind of entry
      with the same id (the inputs never change the id). */
  predicate DraftMatches(editing: Option<Editing>, draft: Draft) {
    match editing
    case None => draft == NoDraft
    case Some(EditingZone(z)) => draft.ZoneDraft? && draft.zone.id == z.id
    case Some(EditingRate(r)) => draft.RateDraft? && draft.rate.id == r.id
  }

  class ShippingAdmin {
    var zones: seq<Zone>
    var rates: seq<Rate>
    var editing: Option<Editing>
    var draft: Draft

    predicate Valid()
      reads this
    {
      DraftMatches(editing, draft)
    }

    /** The page starts with its sample lists and nothing being edited. */
    constructor (initialZones: seq<Zone>, initialRates: seq<Rate>)
      ensures Valid()
      ensures zones == initialZones && rates == initialRates && editing.None? && draft == NoDraft
    {
      zones := initialZones;
      rates := initialRates;
      editing := None;
      draft := NoDraft;
    }

    /** `handleEdit(item, type)` for a zone. */
    method EditZone(z: Zone)
      modifies this
      ensures Valid()
      ensures editing == Some(EditingZone(z)) && draft == ZoneDraft(z)
      ensures zones == old(zones) && rates == old(rates)
    {
      editing := Some(EditingZone(z));
      draft := ZoneDraft(z);
    }

    /** `handleEdit(item, type)` for a rate. */
    method EditRate(r: Rate)
      modifies this
      ensures Valid()
      ensures editing == Some(EditingRate(r)) && draft == RateDraft(r)
      ensures zones == old(zones) && rates == old(rates)
    {
      editing := Some(EditingRate(r));
      draft := RateDraft(r);
    }

    /** `handleSave()`. The Save buttons are only rendered while an entry is being edited. */
    method Save()
      requires Valid() && editing.Some?
      modifies this
      ensures Valid()
      ensures old(editing).value.EditingZone? ==>
                zones == ReplaceZone(old(zones), EditedId(old(editing).value), old(draft).zone) && rates == old(rates)
      ensures old(editing).value.EditingRate? ==>
                rates == ReplaceRate(old(rates), EditedId(old(editing).value), old(draft).rate) && zones == old(zones)
      ensures editing.None? && draft == NoDraft
    {
      match editing.value
      case EditingZone(z) =>
        zones := ReplaceZone(zones, z.id, draft.zone);
        editing := None;
        draft := NoDraft;
      case EditingRate(r) =>
        rates := ReplaceRate(rates, r.id, draft.rate);
        editing := None;
        draft := NoDraft;
    }

    /** `handleCancel()` */
    method Cancel()
      modifies this
      ensures Valid()
      ensures editing.None? && draft == NoDraft
      ensures zones == old(zones) && rates == old(rates)
    {
      editing := None;
      draft := NoDraft;
    }

    /** `handleDelete(id, type)` */
    method Delete(id: int, t: ListType)
      modifies this
      ensures t == Abuja ==> zones == DeleteZone(old(zones), id) && rates == old(rates)
      ensures t == Interstate ==> rates == DeleteRate(old(rates), id) && zones == old(zones)
      ensures editing == old(editing) && draft == old(draft)
    {
      if t == Abuja {
        zones := DeleteZone(zones, id);
      } else {
        rates := DeleteRate(rates, id);
      }
    }

    /** `handleAddNew(type)`: appends a blank entry and opens it for editing. `newId` is the
        `Date.now()` of the click. */
    method AddNew(t: ListType, newId: int)
      modifies this
      ensures Valid()
      ensures t == Abuja ==>
                zones == old(zones) + [BlankZone(newId)] && rates == old(rates)
                && editing == Some(EditingZone(BlankZone(newId))) && draft == ZoneDraft(BlankZone(newId))
      ensures t == Interstate ==>
                rates == old(rates) + [BlankRate(newId)] && zones == old(zones)
                && editing == Some(EditingRate(BlankRate(newId))) && draft == RateDraft(BlankRate(newId))
    {
      if t == Abuja {
        var z := Zone(newId, "", [], 0, "");
        zones := zones + [z];
        editing := Some(EditingZone(z));
        draft := ZoneDraft(z);
      } else {
        var r := Rate(newId, "", Int(0), "", DefaultCourier);
        rates := rates + [r];
        editing := Some(EditingRate(r));
        draft := RateDraft(r);
      }
    }

    /** The zone form's inputs. They are only rendered while a zone is being edited. */
    method ChangeZoneName(value: string)
      requires Valid() && draft.ZoneDraft?
      modifies this
      ensures Valid()
      ensures draft == ZoneDraft(old(draft).zone.(name := value))
      ensures zones == old(zones) && rates == old(rates) && editing == old(editing)
    {
      draft := ZoneDraft(draft.zone.(name := value));
    }

    method ChangeZoneAreas(text: string)
      requires Valid() && draft.ZoneDraft?
      modifies this
      ensures Valid()
      ensures draft == ZoneDraft(old(draft).zone.(areas := ParseAreas(text)))
      ensures zones == old(zones) && rates == old(rates) && editing == old(editing)
    {
      draft := ZoneDraft(draft.zone.(areas := ParseAreas(text)));
    }

    method ChangeZonePrice(text: string)
      requires Valid() && draft.ZoneDraft?
      modifies this
      ensures Valid()
      ensures draft == ZoneDraft(old(draft).zone.(price := ParseZonePrice(text)))
      ensures zones == old(zones) && rates == old(rates) && editing == old(editing)
    {
      var p := ParseInt(text);
      var price := if p.Int? && p.n != 0 then p.n else 0;
      draft := ZoneDraft(draft.zone.(price := price));
    }

    method ChangeZoneTimeframe(value: string)
      requires Valid() && draft.ZoneDraft?
      modifies this
      ensures Valid()
      ensures draft == ZoneDraft(old(draft).zone.(timeframe := value))
      ensures zones == old(zones) && rates == old(rates) && editing == old(editing)
    {
      draft := ZoneDraft(draft.zone.(timeframe := value));
    }

    /** The rate row's inputs. They are only rendered while a rate is being edited. */
    method ChangeRateState(value: string)
      requires Valid() && draft.RateDraft?
      modifies this
      ensures Valid()
      ensures draft == RateDraft(old(draft).rate.(state := value))
      ensures zones == old(zones) && rates == old(rates) && editing == old(editing)
    {
      draft := RateDraft(draft.rate.(state := value));
    }

    /** `parseInt(value)`, with no fallback: a price that does not parse is NaN. */
    method ChangeRatePrice(text: string)
      requires Valid() && draft.RateDraft?
      modifies this
      ensures Valid()
      ensures draft == RateDraft(old(draft).rate.(price := ParseInt(text)))
      ensures zones == old(zones) && rates == old(rates) && editing == old(editing)
    {
      draft := RateDraft(draft.rate.(price := ParseInt(text)));
    }

    method ChangeRateTimeframe(value: string)
      requires Valid() && draft.RateDraft?
      modifies this
      ensures Valid()
      ensures draft == RateDraft(old(draft).rate.(timeframe := value))
      ensures zones == old(zones) && rates == old(rates) && editing == old(editing)
    {
      draft := RateDraft(draft.rate.(timeframe := value));
    }

    method ChangeCourier(value: string)
      requires Valid() && draft.RateDraft?
      modifies this
      ensures Valid()
      ensures draft == RateDraft(old(draft).rate.(courier := value))
      ensures zones == old(zones) && rates == old(rates) && editing == old(editing)
    {
      draft := RateDraft(draft.rate.(courier := value));
    }
  }

  /** Saving a zone draft replaces exactly the zones with the edited id by the draft and
      keeps every other zone in place. */
  lemma ReplaceZoneOnlyEdited(zones: seq<Zone>, id: int, d: Zone)
    ensures var r := ReplaceZone(zones, id, d);
      |r| == |zones|
      && (forall i :: 0 <= i < |zones| && zones[i].id != id ==> r[i] == zones[i])
      && (forall i :: 0 <= i < |zones| && zones[i].id == id ==> r[i] == d)
  {
  }

  lemma ReplaceRateOnlyEdited(rates: seq<Rate>, id: int, d: Rate)
    ensures var r := ReplaceRate(rates, id, d);
      |r| == |rates|
      && (forall i :: 0 <= i < |rates| && rates[i].id != id ==> r[i] == rates[i])
      && (forall i :: 0 <= i < |rates| && rates[i].id == id ==> r[i] == d)
  {
  }

  /** Deleting keeps, in order, exactly the entries with another id. */
  lemma DeleteZoneExactly(zones: seq<Zone>, id: int, x: Zone)
    ensures x in DeleteZone(zones, id) <==> x in zones && x.id != id
    ensures Seqs.Subsequence(DeleteZone(zones, id), zones)
  {
    Seqs.FilterMembers(zones, (z: Zone) => z.id != id, x);
    Seqs.FilterIsSubsequence(zones, (z: Zone) => z.id != id);
  }

  lemma DeleteRateExactly(rates: seq<Rate>, id: int, x: Rate)
    ensures x in DeleteRate(rates, id) <==> x in rates && x.id != id
    ensures Seqs.Subsequence(DeleteRate(rates, id), rates)
  {
    Seqs.FilterMembers(rates, (r: Rate) => r.id != id, x);
    Seqs.FilterIsSubsequence(rates, (r: Rate) => r.id != id);
  }

  /** Add then cancel: the blank entry stays at the end of its list. */
  lemma AddThenCancelKeepsBlank(zones: seq<Zone>, newId: int)
    ensures var after := zones + [BlankZone(newId)];
      |after| == |zones| + 1 && after[|zones|] == BlankZone(newId) && after[..|zones|] == zones
  {
  }

  /** Saving an untouched draft of an entry whose id is unique changes nothing. */
  lemma SaveUntouchedZone(zones: seq<Zone>, k: int)
    requires 0 <= k < |zones|
    requires forall i :: 0 <= i < |zones| && i != k ==> zones[i].id != zones[k].id
    ensures ReplaceZone(zones, zones[k].id, zones[k]) == zones
  {
    var r := ReplaceZone(zones, zones[k].id, zones[k]);
    assert forall i :: 0 <= i < |zones| ==> r[i] == zones[i];
  }

  /** An empty areas input gives no areas, and one area with no ", " in it and not blank
      gives just that area. */
  lemma ParseAreasSmall(area: string)
    requires Trim(area) != "" && !Contains(area, AreaSeparator)
    ensures ParseAreas("") == []
    ensures ParseAreas(area) == [area]
  {
    assert Trim("") == "" by {
      TrimEmptyIffBlank("");
    }
    ContainsAt(area, AreaSeparator);
    assert IndexOf(area, AreaSeparator) == -1;
  }

  /** The areas input shows `areas.join(', ')`; reading that text back gives the same areas
      when none of them is blank or contains ", ". */
  lemma AreasRoundTrip(areas: seq<string>)
    requires forall i :: 0 <= i < |areas| ==> Trim(areas[i]) != "" && !Contains(areas[i], AreaSeparator)
    ensures ParseAreas(Join(areas, AreaSeparator)) == areas
  {
    if areas == [] {
      assert Trim("") == "";
    } else {
      SplitJoin(areas, AreaSeparator);
      Seqs.FilterKeepsAll(areas, (a: string) => Trim(a) != "");
    }
  }

  /** Typing a decimal numeral as the zone price stores that number. */
  lemma ZonePriceOfNumeral(n: int)
    ensures ParseZonePrice(IntToString(n)) == n
  {
    ParseIntOfIntToString(n);
  }
}
