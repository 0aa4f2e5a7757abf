/**
 * The fixtures of the mapping tests, each stated as a fact about the model:
 * the configuration value built by the test, the resource value it expects,
 * and the call that connects them.
 */
module Fixtures {
  import opened Wrappers
  import opened Config
  import opened Decimal
  import HiddenField
  import ClientCredentials
  import Policy

  /** `testHiddenFieldView`: a secret object with both `encrypted_value` and `value`. */
  function HiddenFieldFixture(): map<string, CVal> {
    map[HiddenField.EncryptedValueKey := Str("atat"), HiddenField.ValueKey := Str("atat")]
  }

  /** `testOAuthClientCredentials`: a client id and a one-element secret list. */
  function ClientCredentialsFixture(): map<string, CVal> {
    map[ClientCredentials.ClientIdKey := Str("atat"),
        ClientCredentials.ClientSecretKey := Lst([Obj(HiddenFieldFixture())])]
  }

  /** `testPolicyItem`: a reference to rule 1334. */
  function PolicyItemFixture(): map<string, CVal> {
    map[Policy.IdKey := Str("1334"), Policy.TypeKey := Str("Rule")]
  }

  /** `testPolicy`: a policy whose `api` group holds the policy-item fixture. */
  function PolicyFixture(): seq<CVal> {
    [Obj(map[Policy.ApiKey := Lst([Obj(PolicyItemFixture())])])]
  }

  /** Flattening a hidden field with both members set yields only `value`. */
  lemma FlattenHiddenFieldViewTest()
    ensures HiddenField.Flatten(Some(HiddenField.HiddenFieldView(Some("atat"), Some("atat"))))
         == [Obj(map[HiddenField.ValueKey := Str("atat")])]
  {
  }

  /** Expanding the hidden-field fixture reads `Value` from `value`. */
  lemma ExpandHiddenFieldViewTest()
    ensures var h := HiddenField.Expand([Obj(HiddenFieldFixture())]);
      h.Some? && h.value.value == Some("atat")
  {
  }

  /** Flattening client credentials nests the secret's flattening under `client_secret`. */
  lemma FlattenOAuthClientCredentialsTest()
    ensures ClientCredentials.Flatten(Some(ClientCredentials.OAuthClientCredentialsView(
              Some("atat"), Some(HiddenField.HiddenFieldView(Some("atat"), Some("atat"))))))
         == [Obj(map[ClientCredentials.ClientIdKey := Str("atat"),
                     ClientCredentials.ClientSecretKey := Lst([Obj(map[HiddenField.ValueKey := Str("atat")])])])]
  {
  }

  /** Expanding the client-credentials fixture sets `ClientId` and `ClientSecret.Value`. */
  lemma ExpandOAuthClientCredentialsTest()
    ensures var c := ClientCredentials.Expand([Obj(ClientCredentialsFixture())]);
      && c.Some? && c.value.clientId == Some("atat")
      && c.value.clientSecret.Some? && c.value.clientSecret.value.value == Some("atat")
  {
  }

  /** Flattening the item `{1334, Rule}` yields the policy-item fixture. */
  lemma FlattenPolicyTest()
    ensures Policy.FlattenItems([Policy.PolicyItem(Number("1334"), Some("Rule"))]) == [Obj(PolicyItemFixture())]
  {
  }

  /** Expanding the policy-item fixture gives an item printing as `1334` of type `Rule`, numerically 1334. */
  lemma ExpandPolicyItemTest()
    ensures var items := Policy.ExpandItems([Obj(PolicyItemFixture())]);
      && |items| == 1 && items[0].id.String() == "1334" && items[0].itemType == Some("Rule")
      && Parse(items[0].id.String()) == Some(1334)
  {
    assert Show(1334) == "1334";
    ParseShow(1334);
  }

  /** Expanding the policy fixture gives an `"API"` group whose first item has `Id` 1334, and no other group. */
  lemma ExpandPolicyTest()
    ensures var p := Policy.ExpandPolicy(PolicyFixture());
      && p.Keys == {Policy.ApiGroup}
      && |p[Policy.ApiGroup]| == 1 && p[Policy.ApiGroup][0].id.String() == "1334"
  {
  }
}
