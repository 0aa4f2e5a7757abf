/**
 * The OAuth client-credentials record: a `client_id` and a `client_secret`
 * that goes through the hidden-field codec, both in the list-of-one form.
 */
module ClientCredentials {
  import opened Wrappers
  import opened Config
  import HiddenField

  /** `pa.OAuthClientCredentialsView`. */
  datatype OAuthClientCredentialsView =
    OAuthClientCredentialsView(clientId: Option<string>, clientSecret: Option<HiddenField.HiddenFieldView>)

  const ClientIdKey := "client_id"
  const ClientSecretKey := "client_secret"

  /** The credentials with the secret's ciphertext removed. */
  function Public(c: OAuthClientCredentialsView): OAuthClientCredentialsView {
    OAuthClientCredentialsView(c.clientId, HiddenField.PublicOpt(c.clientSecret))
  }

  function PublicOpt(c: Option<OAuthClientCredentialsView>): Option<OAuthClientCredentialsView> {
    if c.Some? then Some(Public(c.value)) else None
  }

  /**
   * The object of the list-of-one: `client_id` when set, and `client_secret`
   * always, as the (possibly empty) list that encodes the optional secret.
   */
  function Fields(c: OAuthClientCredentialsView): map<string, CVal> {
    PutStr(map[], ClientIdKey, c.clientId)[ClientSecretKey := Lst(HiddenField.Flatten(c.clientSecret))]
  }

  /**
   * `flattenOAuthClientCredentialsView`: a nil record gives the empty list;
   * any other gives one object with `client_id` equal to `ClientId` and
   * `client_secret` equal to the hidden-field flattening of `ClientSecret`,
   * which is the empty list when there is no secret.
   */
  function Flatten(c: Option<OAuthClientCredentialsView>): (r: seq<CVal>)
    ensures c.None? ==> r == []
    ensures c.Some? ==> |r| == 1 && r[0].Obj?
    ensures c.Some? ==> r[0].fields.Keys <= {ClientIdKey, ClientSecretKey}
    ensures c.Some? ==> StrAt(r[0].fields, ClientIdKey) == c.value.clientId
    ensures c.Some? ==> (ClientIdKey in r[0].fields <==> c.value.clientId.Some?)
    ensures c.Some? ==>
      ClientSecretKey in r[0].fields && r[0].fields[ClientSecretKey] == Lst(HiddenField.Flatten(c.value.clientSecret))
  {
    if c.None? then [] else [Obj(Fields(c.value))]
  }

  /**
   * `expandOAuthClientCredentialsView`: no object in the list gives no
   * record; otherwise `ClientId` is read from `client_id` and `ClientSecret`
   * is the hidden-field expansion of the `client_secret` list.
   */
  function Expand(l: seq<CVal>): (r: Option<OAuthClientCredentialsView>)
    ensures r.Some? <==> |l| > 0 && l[0].Obj?
    ensures r.Some? ==> r.value.clientId == StrAt(l[0].fields, ClientIdKey)
    ensures r.Some? && ListAt(l[0].fields, ClientSecretKey).Some? ==>
      r.value.clientSecret == HiddenField.Expand(l[0].fields[ClientSecretKey].items)
    ensures r.Some? && ListAt(l[0].fields, ClientSecretKey).None? ==> r.value.clientSecret.None?
  {
    match Single(l)
    case None => None
    case Some(m) =>
      var secret := ListAt(m, ClientSecretKey);
      Some(OAuthClientCredentialsView(StrAt(m, ClientIdKey), if secret.Some? then HiddenField.Expand(secret.value) else None))
  }

  /** The configuration form of the credentials never depends on the secret's ciphertext. */
  lemma FlattenHidesSecret(c: OAuthClientCredentialsView)
    ensures Flatten(Some(c)) == Flatten(Some(Public(c)))
  {
    if c.clientSecret.Some? {
      HiddenField.FlattenHidesSecret(c.clientSecret.value, HiddenField.Public(c.clientSecret.value));
    }
  }

  /** Configuration of a text `client_id` and a one-object secret list of a text `value` survives expand then flatten. */
  lemma FlattenExpand(id: string, v: string)
    ensures var l := [Obj(map[ClientIdKey := Str(id), ClientSecretKey := Lst([Obj(map[HiddenField.ValueKey := Str(v)])])])];
      Flatten(Expand(l)) == l
  {
  }

  /** Configuration of a text `client_id` and an empty secret list, the form of "no secret", survives expand then flatten. */
  lemma NoSecretFlattenExpand(id: string)
    ensures var l := [Obj(map[ClientIdKey := Str(id), ClientSecretKey := Lst([])])];
      Flatten(Expand(l)) == l
  {
  }

  /** Everything flatten produces is a fixed point of expand then flatten. */
  lemma FlattenImage(c: Option<OAuthClientCredentialsView>)
    ensures Flatten(Expand(Flatten(c))) == Flatten(c)
  {
    ExpandFlatten(c);
    if c.Some? {
      FlattenHidesSecret(c.value);
    }
  }

  /** Flatten then expand gives back the credentials, less the secret's ciphertext. */
  lemma ExpandFlatten(c: Option<OAuthClientCredentialsView>)
    ensures Expand(Flatten(c)) == PublicOpt(c)
  {
    if c.Some? {
      HiddenField.ExpandFlatten(c.value.clientSecret);
    }
  }
}
