/** `TagRulesBuilder._build_tag_rules` (src/cdk_auto_platform/build/tag_rules_builder.py):
    the mandatory tags derived from a tenant, applied to a stack one pair at a
    time. The stack is not modelled: the result is the sequence of
    `Tags.of(stack).add(key, value)` calls the loop makes. */
module TagRules {
  import opened Wrappers
  import opened Errors
  import opened Enums
  import CdkTenants

  datatype Tag = Tag(key: string, value: string)

  /** The `required_tags` dict, in its insertion order. */
  function RequiredTags(company: string, product: Product, environment: AppEnvironment): (tags: seq<Tag>)
    ensures |tags| == 3
    ensures forall i :: 0 <= i < |tags| ==> tags[i].key in {"company", "product", "environment"}
  {
    [Tag("company", company), Tag("product", product.value), Tag("environment", environment.Value())]
  }

  /** The keys of a list of tags. */
  function Keys(tags: seq<Tag>): (keys: set<string>)
    ensures forall i :: 0 <= i < |tags| ==> tags[i].key in keys
    ensures forall k :: k in keys ==> exists i :: 0 <= i < |tags| && tags[i].key == k
  {
    set i | 0 <= i < |tags| :: tags[i].key
  }

  /** No key occurs twice, so the list reads as a dict without loss. */
  ghost predicate DistinctKeys(tags: seq<Tag>)
  {
    forall i, j :: 0 <= i < j < |tags| ==> tags[i].key != tags[j].key
  }

  /** The value a key maps to in a list of tags with distinct keys. */
  function Lookup(tags: seq<Tag>, key: string): Option<string>
  {
    if |tags| == 0 then None
    else if tags[0].key == key then Some(tags[0].value)
    else Lookup(tags[1..], key)
  }

  /** The mapping has exactly the keys company, product and environment, each
      once, holding the tenant's company, its product's value and its
      environment's value. */
  lemma RequiredTagsShape(company: string, product: Product, environment: AppEnvironment)
    ensures Keys(RequiredTags(company, product, environment)) == {"company", "product", "environment"}
    ensures DistinctKeys(RequiredTags(company, product, environment))
    ensures Lookup(RequiredTags(company, product, environment), "company") == Some(company)
    ensures Lookup(RequiredTags(company, product, environment), "product") == Some(product.value)
    ensures Lookup(RequiredTags(company, product, environment), "environment") == Some(environment.Value())
  {
    var tags := RequiredTags(company, product, environment);
    assert tags[0].key == "company" && tags[1].key == "product" && tags[2].key == "environment";
    var last := tags[1..][1..];
    assert last == [Tag("environment", environment.Value())];
    assert Lookup(tags, "environment") == Lookup(tags[1..], "environment") == Lookup(last, "environment");
  }

  /** `_build_tag_rules(stack, tenant)`: fails when the tenant's environment
      was never set (no lifecycle method has run); otherwise applies every
      required pair exactly once, in dict order. The tenant is only read. */
  method BuildTagRules(tenant: CdkTenants.TenantBase) returns (r: Result<seq<Tag>, Exception>)
    ensures r.Failure? <==> tenant.environment.None?
    ensures r.Failure? ==> r.error == AttributeError("environment")
    ensures r.Success? ==> r.value == RequiredTags(tenant.company, tenant.product, tenant.environment.value)
  {
    if tenant.environment.None? {
      return Failure(AttributeError("environment"));
    }
    var requiredTags := RequiredTags(tenant.company, tenant.product, tenant.environment.value);
    var applied: seq<Tag> := [];
    for i := 0 to |requiredTags|
      invariant applied == requiredTags[..i]
    {
      applied := applied + [requiredTags[i]];
    }
    return Success(applied);
  }
}
