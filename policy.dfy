/**
 * Policy items and policy groups. A policy is an ordered list of
 * `{id, type}` references to rules; the order is the order in which the
 * rules are evaluated, so both directions keep it.
 */
module Policy {
  import opened Wrappers
  import opened Config
  import opened Decimal

  /** `pa.PolicyItem`: an identifier as decimal text and the `type` discriminator. */
  datatype PolicyItem = PolicyItem(id: Number, itemType: Option<string>)

  const IdKey := "id"
  const TypeKey := "type"

  /** Configuration key of the API rule group, and its key in the expanded policy. */
  const ApiKey := "api"
  const ApiGroup := "API"

  /** The configuration object of one item: `id` as its text, `type` copied (empty when unset). */
  function FlattenItem(p: PolicyItem): CVal {
    Obj(map[IdKey := Str(p.id.String()), TypeKey := Str(p.itemType.GetOr(""))])
  }

  /**
   * `flattenPolicyItem`: one object per item, in the same order, each
   * holding exactly `id` (the decimal text of `Id`) and `type`.
   */
  function FlattenItems(items: seq<PolicyItem>): (r: seq<CVal>)
    ensures |r| == |items|
    ensures forall i :: 0 <= i < |items| ==>
      r[i].Obj? && r[i].fields.Keys == {IdKey, TypeKey}
      && r[i].fields[IdKey] == Str(items[i].id.String())
      && r[i].fields[TypeKey] == Str(items[i].itemType.GetOr(""))
  {
    if items == [] then [] else [FlattenItem(items[0])] + FlattenItems(items[1..])
  }

  /** The item an element of the configuration list denotes; a missing field stays at its zero value. */
  function ExpandItem(c: CVal): PolicyItem {
    if c.Obj? then PolicyItem(Number(StrAt(c.fields, IdKey).GetOr("")), StrAt(c.fields, TypeKey))
    else PolicyItem(Number(""), None)
  }

  /**
   * `expandPolicyItem`: one item per element, in the same order; the item's
   * `Id` prints as the element's `id` text, and its `Type` is the element's
   * `type`.
   */
  function ExpandItems(l: seq<CVal>): (r: seq<PolicyItem>)
    ensures |r| == |l|
    ensures forall i :: 0 <= i < |l| && l[i].Obj? && StrAt(l[i].fields, IdKey).Some? ==>
      r[i].id.String() == l[i].fields[IdKey].s
    ensures forall i :: 0 <= i < |l| && l[i].Obj? && StrAt(l[i].fields, IdKey).None? ==> r[i].id == Number("")
    ensures forall i :: 0 <= i < |l| && !l[i].Obj? ==> r[i] == PolicyItem(Number(""), None)
    ensures forall i :: 0 <= i < |l| && l[i].Obj? ==> r[i].itemType == StrAt(l[i].fields, TypeKey)
  {
    if l == [] then [] else [ExpandItem(l[0])] + ExpandItems(l[1..])
  }

  /** A configuration item list as the framework stores it: objects of exactly a text `id` and a text `type`. */
  predicate WellFormed(l: seq<CVal>) {
    forall i :: 0 <= i < |l| ==>
      l[i].Obj? && l[i].fields.Keys == {IdKey, TypeKey}
      && l[i].fields[IdKey].Str? && l[i].fields[TypeKey].Str?
  }

  /** Flattening always yields a list in that stored form. */
  lemma {:induction false} FlattenWellFormed(items: seq<PolicyItem>)
    ensures WellFormed(FlattenItems(items))
  {
  }

  /** Items that carry a discriminator survive flatten then expand, in order and with the same `type`. */
  lemma {:induction false} ExpandFlatten(items: seq<PolicyItem>)
    requires forall i :: 0 <= i < |items| ==> items[i].itemType.Some?
    ensures ExpandItems(FlattenItems(items)) == items
  {
    var r := ExpandItems(FlattenItems(items));
    forall i | 0 <= i < |items|
      ensures r[i] == items[i]
    {
      assert r[i].id.text == items[i].id.text;
    }
  }

  /** A well-formed configuration list survives expand then flatten. */
  lemma {:induction false} FlattenExpand(l: seq<CVal>)
    requires WellFormed(l)
    ensures FlattenItems(ExpandItems(l)) == l
  {
    var r := FlattenItems(ExpandItems(l));
    forall i | 0 <= i < |l|
      ensures r[i] == l[i]
    {
      assert r[i].fields == l[i].fields;
    }
  }

  /**
   * `expandPolicy`: the list-of-one's `api` list becomes the `"API"` entry of
   * the result; a group missing from the configuration is missing from the
   * result, not present as an empty list.
   */
  function ExpandPolicy(l: seq<CVal>): (r: map<string, seq<PolicyItem>>)
    ensures r.Keys <= {ApiGroup}
    ensures ApiGroup in r <==> |l| > 0 && l[0].Obj? && ListAt(l[0].fields, ApiKey).Some?
    ensures ApiGroup in r ==> r[ApiGroup] == ExpandItems(l[0].fields[ApiKey].items)
  {
    match Single(l)
    case None => map[]
    case Some(m) =>
      match ListAt(m, ApiKey)
      case None => map[]
      case Some(api) => map[ApiGroup := ExpandItems(api)]
  }

  /** The items of a policy's API group keep the order and the fields of its `api` list. */
  lemma {:induction false} ExpandPolicyApi(items: seq<PolicyItem>)
    requires forall i :: 0 <= i < |items| ==> items[i].itemType.Some?
    ensures ExpandPolicy([Obj(map[ApiKey := Lst(FlattenItems(items))])]) == map[ApiGroup := items]
  {
    ExpandFlatten(items);
  }

  /** Identifiers built from numbers read back as those numbers after flatten then expand. */
  lemma {:induction false} IdRoundTrip(ns: seq<nat>, t: string)
    ensures var items := seq(|ns|, i requires 0 <= i < |ns| => PolicyItem(FromNat(ns[i]), Some(t)));
      forall i :: 0 <= i < |ns| ==> Parse(ExpandItems(FlattenItems(items))[i].id.String()) == Some(ns[i])
  {
    var items := seq(|ns|, i requires 0 <= i < |ns| => PolicyItem(FromNat(ns[i]), Some(t)));
    ExpandFlatten(items);
    forall i | 0 <= i < |ns|
      ensures Parse(items[i].id.String()) == Some(ns[i])
    {
      FromNatRoundTrip(ns[i]);
    }
  }
}
