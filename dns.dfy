/** The two DNS names a tenant derives from its product and principal domain;
    both tenant models compute them the same way in their constructors. */
module Dns {
  import opened Enums

  /** `{product.value}.{principal_dns}` */
  function FederatedDns(product: Product, principalDns: string): (name: string)
    ensures |name| == |product.value| + 1 + |principalDns|
    ensures name[..|product.value|] == product.value && name[|product.value|] == '.'
    ensures name[|product.value| + 1..] == principalDns
  {
    product.value + "." + principalDns
  }

  /** `internal.{federated_dns}` */
  function PrivateDns(federatedDns: string): (name: string)
    ensures |name| == 9 + |federatedDns|
    ensures name[..9] == "internal." && name[9..] == federatedDns
  {
    "internal." + federatedDns
  }

  /** `child` is `parent` with some text and a dot in front; the text is
      empty only when the product's value is. */
  ghost predicate IsSubdomainOf(child: string, parent: string)
  {
    exists prefix :: child == prefix + "." + parent
  }

  /** The federated name is a subdomain of the principal domain, named by the
      product's value, and the private name is the `internal` subdomain of the
      federated name. */
  lemma DerivedNamesNest(product: Product, principalDns: string)
    ensures IsSubdomainOf(FederatedDns(product, principalDns), principalDns)
    ensures IsSubdomainOf(PrivateDns(FederatedDns(product, principalDns)), FederatedDns(product, principalDns))
    ensures |FederatedDns(product, principalDns)| == |product.value| + 1 + |principalDns|
    ensures PrivateDns(FederatedDns(product, principalDns))[..9] == "internal."
  {
    var federated := FederatedDns(product, principalDns);
    assert federated == product.value + "." + principalDns;
    assert PrivateDns(federated) == "internal" + "." + federated;
  }
}
