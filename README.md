# PingAccess provider: configuration/resource mapping layer

This project models the mapping layer of the Terraform provider for PingAccess:
the `flatten*` functions, which turn typed PingAccess SDK values into
Terraform's untyped configuration values, and the `expand*` functions, which go
the other way. All of them are pure. They build new lists and maps from their
input and keep no state, so each is a Dafny `function` over datatypes, and the
properties are lemmas.

- `config.dfy`: the configuration tree `CVal` (text, list, string-keyed
  object) and the helpers for reading a key and for the list-of-one encoding of
  an optional nested object.
- `decimal.dfy`: `json.Number` as decimal text (`Number`), with a decimal
  show/parse pair on `nat`. The pair is proved inverse on canonical digit text.
- `hidden_field.dfy`: `HiddenFieldView {Value, EncryptedValue}` and its codec.
  Flatten emits only `value`. Expand reads only `value`.
- `client_credentials.dfy`: `OAuthClientCredentialsView {ClientId,
  ClientSecret}`. The secret goes through the hidden-field codec.
- `policy.dfy`: `PolicyItem {Id, Type}` sequences and `expandPolicy`, which
  turns the `api` group into the `"API"` entry of the result map.
- `fixtures.dfy`: the test fixtures and the six tests, each stated as a lemma.

An SDK pointer that may be nil is an `Option`. The fixtures and assertions of
pingaccess/structures_test.go fix the behaviour. The tests leave some cases
open. For those, the model makes these choices of its own:
- flattening a nil record gives the empty list, also when that record is
  nested: a nil client secret flattens to `client_secret` holding the empty
  list;
- an unset optional text is left out of the flattened object, because `CVal`
  has no "unset" value to put under the key;
- an unset policy-item `type` flattens to the empty text, so that flatten is
  total;
- expanding an empty list gives a nil record;
- a missing configuration key leaves the field unset, and a policy-item `id`
  that is missing or not text gives the empty `json.Number` (the Go zero
  value); a policy-item element that is not an object gives the zero item.

The expansion of a hidden field never sets `EncryptedValue`. The test checks
only `Value`. Its check of `EncryptedValue` is commented out
(pingaccess/structures_test.go:36), and so are the `encrypted_value` entries of
the expected flattenings (:23, :60).

## Model

| member | source | states |
|---|---|---|
| `HiddenField.Flatten` | pingaccess/structures_test.go:17-28 | a nil field flattens to the empty list; a set field flattens to exactly one object whose only possible key is `value`, present exactly when `Value` is set and then holding it as text; `encrypted_value` is never a key |
| `HiddenField.Expand` | pingaccess/structures_test.go:30-37 | a list whose first element is an object expands to a field whose `Value` is that object's `value` text and whose `EncryptedValue` is unset; any other list expands to nil |
| `HiddenField.FlattenHidesSecret` | pingaccess/structures_test.go:18-23 | two hidden fields with the same `Value` flatten to the same configuration, whatever their `EncryptedValue` |
| `HiddenField.ExpandFlatten` | pingaccess/structures_test.go:17-37 | expanding the flattening of a field gives back its `Value` with `EncryptedValue` unset, and nil for nil |
| `HiddenField.FlattenExpand` | pingaccess/structures_test.go:30-37 | a one-object list holding only a text `value` is a fixed point of expand then flatten |
| `ClientCredentials.Flatten` | pingaccess/structures_test.go:51-65 | a nil record flattens to the empty list; a set record flattens to one object with `client_id` present exactly when `ClientId` is set and then equal to it, and always with `client_secret`, equal to the hidden-field flattening of `ClientSecret` (the empty list when it is nil) |
| `ClientCredentials.Expand` | pingaccess/structures_test.go:67-74 | a list whose first element is an object expands to a record whose `ClientId` is its `client_id` text and whose `ClientSecret` is the hidden-field expansion of its `client_secret` list (nil when there is no such list) |
| `ClientCredentials.FlattenHidesSecret` | pingaccess/structures_test.go:52-60 | the flattened credentials are the same as those of the credentials with the secret's ciphertext removed |
| `HiddenField.FlattenImage` | pingaccess/structures_test.go:17-37 | everything hidden-field flatten produces is a fixed point of expand then flatten |
| `ClientCredentials.NoSecretFlattenExpand` | pingaccess/structures_test.go:39-74 | a one-object list of a text `client_id` and an empty `client_secret` list is a fixed point of expand then flatten |
| `ClientCredentials.FlattenImage` | pingaccess/structures_test.go:39-74 | everything client-credentials flatten produces is a fixed point of expand then flatten |
| `ClientCredentials.FlattenExpand` | pingaccess/structures_test.go:39-74 | a one-object list of a text `client_id` and a `client_secret` list holding one `{value: text}` object is a fixed point of expand then flatten |
| `ClientCredentials.ExpandFlatten` | pingaccess/structures_test.go:39-74 | expanding the flattening of the credentials gives them back, less the secret's `EncryptedValue` |
| `Policy.FlattenItems` | pingaccess/structures_test.go:83-96 | the result has the items' length and order; element i is an object of exactly `id` (the text of item i's `Id`) and `type` (its `Type`, or empty text when unset) |
| `Policy.ExpandItems` | pingaccess/structures_test.go:98-105 | the result has the list's length and order; item i's `Id` prints as element i's `id` text (and is the empty number when `id` is missing or not text) and its `Type` is element i's `type`; an element that is not an object gives the zero item |
| `Policy.FlattenWellFormed` | pingaccess/structures_test.go:91 | every flattening is a list of objects of exactly a text `id` and a text `type` |
| `Policy.ExpandFlatten` | pingaccess/structures_test.go:76-105 | items that all carry a `Type` come back unchanged, in the same order, from flatten then expand |
| `Policy.FlattenExpand` | pingaccess/structures_test.go:76-105 | a list of objects of exactly a text `id` and a text `type` comes back unchanged from expand then flatten |
| `Policy.ExpandPolicy` | pingaccess/structures_test.go:107-118 | the result has no key but `"API"`; it has `"API"` exactly when the list-of-one holds an `api` list, and then that entry is the expansion of the `api` list |
| `Policy.ExpandPolicyApi` | pingaccess/structures_test.go:107-118 | a policy whose `api` list is the flattening of items that all carry a `Type` expands to the map from `"API"` to those very items |
| `Policy.IdRoundTrip` | pingaccess/structures_test.go:84-103 | items whose identifiers are built from numbers keep those numbers, read from their decimal text, across flatten then expand |
| `Decimal.Show` | pingaccess/structures_test.go:86 | the decimal text of a number is non-empty digits with no leading zero, and is `"0"` exactly for zero |
| `Decimal.Parse` | pingaccess/structures_test.go:86 | a text has a numeric reading exactly when it is non-empty and all digits |
| `Decimal.ParseShow` | pingaccess/structures_test.go:86 | parsing the decimal text of a number gives the number |
| `Decimal.ShowParse` | pingaccess/structures_test.go:103 | canonical decimal text parses, and showing the parsed number gives the text back |
| `Decimal.FromNatRoundTrip` | pingaccess/structures_test.go:86 | the `json.Number` built from a number reads back as that number |
| `Fixtures.FlattenHiddenFieldViewTest` | pingaccess/structures_test.go:17-28 | `{Value:"atat", EncryptedValue:"atat"}` flattens to `[{value:"atat"}]` |
| `Fixtures.ExpandHiddenFieldViewTest` | pingaccess/structures_test.go:10-37 | the fixture with `encrypted_value` and `value` expands to a field whose `Value` is `"atat"` |
| `Fixtures.FlattenOAuthClientCredentialsTest` | pingaccess/structures_test.go:51-65 | the credentials fixture flattens to `[{client_id:"atat", client_secret:[{value:"atat"}]}]` |
| `Fixtures.ExpandOAuthClientCredentialsTest` | pingaccess/structures_test.go:39-74 | the credentials fixture expands to `ClientId` `"atat"` and `ClientSecret.Value` `"atat"` |
| `Fixtures.FlattenPolicyTest` | pingaccess/structures_test.go:83-96 | the item `{1334, "Rule"}` flattens to `[{id:"1334", type:"Rule"}]` |
| `Fixtures.ExpandPolicyItemTest` | pingaccess/structures_test.go:98-105 | the policy-item fixture expands to one item whose `Id` prints `"1334"` (numerically 1334) and whose `Type` is `"Rule"` |
| `Fixtures.ExpandPolicyTest` | pingaccess/structures_test.go:107-118 | the policy fixture expands to a map with only the `"API"` group, whose first item's `Id` prints `"1334"` |

## Left out

- pingaccess/provider_test.go: container start-up, environment variables,
  HTTP calls to PingFederate and the test helpers are test-harness code, not
  mapping logic.
- The Terraform plugin SDK (schema, diff engine) and the PingAccess SDK client
  are foreign libraries. Only the value shapes the tests use are modelled.
- A `web` group in `expandPolicy`: the test exercises only `api`, so the model
  declares that group alone.
- Policy.ExpandItems: does not reject an unknown `type` or an `id` that is not
  decimal text. The tests do not exercise either case; the text is copied
  unchanged, as the `json.Number` conversion does.
- Go panics on values of the wrong dynamic type (a type assertion that fails):
  the model reads such a value as absent, so expand degrades to nil or zero
  fields instead.
- HiddenField.Flatten and ClientCredentials.Flatten: an unset `Value` or
  `ClientId` (an optional text) leaves its key out of the flattened object. The model has no
  separate "unset" configuration value, so it cannot keep the key with such a
  value in it.
- Expand reads only the first element of a list-of-one; further elements are
  ignored.
- The model does not tell `[]interface{}` from `[]map[string]interface{}`;
  both are `Lst`.
- Go pointer identity and aliasing: the model works on values.
- The commented-out `flatmap.Expand` calls in the tests are dead code.
