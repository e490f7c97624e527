/**
  Key and value rewriting applied to the attribution details before they are
  sent to the analytics backend: every `-` in a key becomes `_`, and every
  value becomes a string.
 */
module Sanitizing {

  /** A value of the attribution dictionary. A string is kept as it is; any
      other object is reported through the text its description yields, which
      the `Other` case carries. */
  datatype Value = Str(text: string) | Other(description: string)

  /** The key with every `-` replaced by `_`. */
  function ReplaceDashes(key: string): (r: string)
    ensures |r| == |key| && '-' !in r
  {
    seq(|key|, i requires 0 <= i < |key| => if key[i] == '-' then '_' else key[i])
  }

  /** The string a value is reported as. */
  function Stringify(v: Value): string
  {
    match v
    case Str(text) => text
    case Other(description) => description
  }

  /** The keys a sanitized dictionary has. */
  function SanitizedKeys(keys: set<string>): set<string>
  {
    set k | k in keys :: ReplaceDashes(k)
  }

  /** `sanitized` is what rewriting every entry of `parameters` can give, in
      some order of the entries: its keys are exactly the rewritten input keys,
      and each of its values is the stringified value of one input key that
      rewrites to it (which one is unspecified when two keys collide). */
  ghost predicate IsSanitizationOf(parameters: map<string, Value>, sanitized: map<string, string>)
  {
    && sanitized.Keys == SanitizedKeys(parameters.Keys)
    && forall key' :: key' in sanitized ==>
         exists key :: key in parameters && ReplaceDashes(key) == key' && sanitized[key'] == Stringify(parameters[key])
  }

  /** Fills a fresh dictionary with the rewritten entries, visiting the input
      entries in an unspecified order. */
  method Sanitize(parameters: map<string, Value>) returns (sanitized: map<string, string>)
    ensures IsSanitizationOf(parameters, sanitized)
  {
    sanitized := map[];
    var rest := parameters.Keys;
    while rest != {}
      invariant rest <= parameters.Keys
      invariant sanitized.Keys == SanitizedKeys(parameters.Keys - rest)
      invariant forall key' :: key' in sanitized ==>
          exists key :: key in parameters && ReplaceDashes(key) == key' && sanitized[key'] == Stringify(parameters[key])
      decreases rest
    {
      var key :| key in rest;
      sanitized := sanitized[ReplaceDashes(key) := Stringify(parameters[key])];
      rest := rest - {key};
    }
  }

  /** Rewriting keys never makes a set of keys larger. */
  lemma {:induction false} SanitizedKeysNoLarger(keys: set<string>)
    ensures |SanitizedKeys(keys)| <= |keys|
    decreases keys
  {
    if keys != {} {
      var key :| key in keys;
      var rest := keys - {key};
      SanitizedKeysNoLarger(rest);
      assert SanitizedKeys(keys) == SanitizedKeys(rest) + {ReplaceDashes(key)};
    }
  }

  /** The sanitized dictionary has no key containing `-` and never has more
      entries than the input. */
  lemma SanitizedShape(parameters: map<string, Value>, sanitized: map<string, string>)
    requires IsSanitizationOf(parameters, sanitized)
    ensures forall key' :: key' in sanitized ==> '-' !in key'
    ensures |sanitized| <= |parameters|
  {
    SanitizedKeysNoLarger(parameters.Keys);
    assert |sanitized| == |sanitized.Keys|;
    assert |parameters| == |parameters.Keys|;
  }

  /** A key that no other key collides with keeps its value: a string value
      unchanged, any other value as its description. */
  lemma SanitizedUniqueKey(parameters: map<string, Value>, sanitized: map<string, string>, key: string)
    requires IsSanitizationOf(parameters, sanitized)
    requires key in parameters
    requires forall other :: other in parameters && ReplaceDashes(other) == ReplaceDashes(key) ==> other == key
    ensures ReplaceDashes(key) in sanitized
    ensures parameters[key].Str? ==> sanitized[ReplaceDashes(key)] == parameters[key].text
    ensures parameters[key].Other? ==> sanitized[ReplaceDashes(key)] == parameters[key].description
  {
  }

  /** A key without `-` is left as it is. */
  lemma DashFreeKeyUnchanged(key: string)
    requires '-' !in key
    ensures ReplaceDashes(key) == key
  {
  }

  /** The sanitized dictionary read back as string values. */
  function AsValues(sanitized: map<string, string>): (r: map<string, Value>)
  {
    map key | key in sanitized :: Str(sanitized[key])
  }

  /** Rewriting a set of keys that hold no `-` leaves the set as it is. */
  lemma DashFreeKeysUnchanged(keys: set<string>)
    requires forall key :: key in keys ==> '-' !in key
    ensures SanitizedKeys(keys) == keys
  {
    forall key | key in keys
      ensures ReplaceDashes(key) == key
    {
      DashFreeKeyUnchanged(key);
    }
  }

  /** Re-sanitizing a sanitized dictionary keeps each of its entries. */
  lemma ResanitizedEntry(parameters: map<string, Value>, sanitized: map<string, string>, again: map<string, string>, key': string)
    requires IsSanitizationOf(parameters, sanitized)
    requires IsSanitizationOf(AsValues(sanitized), again)
    requires key' in again
    ensures key' in sanitized && again[key'] == sanitized[key']
  {
    SanitizedShape(parameters, sanitized);
    var values := AsValues(sanitized);
    var key :| key in values && ReplaceDashes(key) == key' && again[key'] == Stringify(values[key]);
    DashFreeKeyUnchanged(key);
  }

  /** Re-sanitizing a sanitized dictionary keeps its keys. */
  lemma ResanitizedKeys(parameters: map<string, Value>, sanitized: map<string, string>, again: map<string, string>)
    requires IsSanitizationOf(parameters, sanitized)
    requires IsSanitizationOf(AsValues(sanitized), again)
    ensures again.Keys == sanitized.Keys
  {
    SanitizedShape(parameters, sanitized);
    var values := AsValues(sanitized);
    assert values.Keys == sanitized.Keys;
    DashFreeKeysUnchanged(sanitized.Keys);
    assert again.Keys == SanitizedKeys(values.Keys);
  }

  /** Sanitizing is idempotent: sanitizing its output again gives the output back. */
  lemma SanitizeIdempotent(parameters: map<string, Value>, sanitized: map<string, string>, again: map<string, string>)
    requires IsSanitizationOf(parameters, sanitized)
    requires IsSanitizationOf(AsValues(sanitized), again)
    ensures again == sanitized
  {
    ResanitizedKeys(parameters, sanitized, again);
    assert again.Keys == sanitized.Keys;
    forall key' | key' in again
      ensures again[key'] == sanitized[key']
    {
      ResanitizedEntry(parameters, sanitized, again, key');
    }
  }

  /** The shape of a real attribution payload: dashed keys become underscored,
      a string stays, a number is reported by its description. */
  lemma SanitizeExample(sanitized: map<string, string>)
    requires IsSanitizationOf(map["iad-org-name" := Str("Acme"), "iad-campaign-id" := Other("1234567890")], sanitized)
    ensures sanitized == map["iad_org_name" := "Acme", "iad_campaign_id" := "1234567890"]
  {
    var parameters := map["iad-org-name" := Str("Acme"), "iad-campaign-id" := Other("1234567890")];
    assert ReplaceDashes("iad-org-name") == "iad_org_name";
    assert ReplaceDashes("iad-campaign-id") == "iad_campaign_id";
    assert parameters.Keys == {"iad-org-name", "iad-campaign-id"};
    assert sanitized.Keys == {"iad_org_name", "iad_campaign_id"};
    SanitizedUniqueKey(parameters, sanitized, "iad-org-name");
    SanitizedUniqueKey(parameters, sanitized, "iad-campaign-id");
  }
}
