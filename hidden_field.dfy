/**
 * The hidden-field codec: a secret record `{Value, EncryptedValue}` and its
 * configuration form, a list-of-one holding only `value`. Secrets flow from
 * configuration to the server; the server's ciphertext never becomes
 * configuration.
 */
module HiddenField {
  import opened Wrappers
  import opened Config

  /** `pa.HiddenFieldView`: plaintext the caller may set, ciphertext the server reports. */
  datatype HiddenFieldView = HiddenFieldView(value: Option<string>, encryptedValue: Option<string>)

  const ValueKey := "value"
  const EncryptedValueKey := "encrypted_value"

  /** What of a hidden field configuration may see and set: the plaintext alone. */
  function Public(h: HiddenFieldView): HiddenFieldView {
    HiddenFieldView(h.value, None)
  }

  /** `Public` lifted to a field that may be nil. */
  function PublicOpt(h: Option<HiddenFieldView>): Option<HiddenFieldView> {
    if h.Some? then Some(Public(h.value)) else None
  }

  /**
   * `flattenHiddenFieldView`: a nil field gives the empty list; any other
   * gives one object whose only possible key is `value`, holding `Value`.
   */
  function Flatten(h: Option<HiddenFieldView>): (r: seq<CVal>)
    ensures h.None? ==> r == []
    ensures h.Some? ==> |r| == 1 && r[0].Obj?
    ensures h.Some? ==> r[0].fields.Keys <= {ValueKey} && EncryptedValueKey !in r[0].fields
    ensures h.Some? ==> StrAt(r[0].fields, ValueKey) == h.value.value
    ensures h.Some? ==> (ValueKey in r[0].fields <==> h.value.value.Some?)
  {
    if h.None? then [] else [Obj(PutStr(map[], ValueKey, h.value.value))]
  }

  /**
   * `expandHiddenFieldView`: no object in the list gives no field; otherwise
   * `Value` is read from `value`, and `EncryptedValue` is never taken from
   * configuration.
   */
  function Expand(l: seq<CVal>): (r: Option<HiddenFieldView>)
    ensures r.Some? <==> |l| > 0 && l[0].Obj?
    ensures r.Some? ==> r.value.value == StrAt(l[0].fields, ValueKey)
    ensures r.Some? ==> r.value.encryptedValue.None?
  {
    match Single(l)
    case None => None
    case Some(m) => Some(HiddenFieldView(StrAt(m, ValueKey), None))
  }

  /** The configuration form of a hidden field depends on its plaintext alone. */
  lemma FlattenHidesSecret(h1: HiddenFieldView, h2: HiddenFieldView)
    requires h1.value == h2.value
    ensures Flatten(Some(h1)) == Flatten(Some(h2))
  {
  }

  /** Flatten then expand keeps the plaintext and drops the ciphertext. */
  lemma ExpandFlatten(h: Option<HiddenFieldView>)
    ensures Expand(Flatten(h)) == PublicOpt(h)
  {
  }

  /** Everything flatten produces is a fixed point of expand then flatten. */
  lemma FlattenImage(h: Option<HiddenFieldView>)
    ensures Flatten(Expand(Flatten(h))) == Flatten(h)
  {
    ExpandFlatten(h);
  }

  /** Configuration holding only a text `value` survives expand then flatten. */
  lemma FlattenExpand(v: string)
    ensures Flatten(Expand([Obj(map[ValueKey := Str(v)])])) == [Obj(map[ValueKey := Str(v)])]
  {
  }
}
