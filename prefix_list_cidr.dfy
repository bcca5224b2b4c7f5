/** `PrefixListCidr`: one allow-listed block with a description
    (src/cdk_auto_platform/models/vpc/prefix_list_cidr.py; the iden_q tenant
    module declares a textually identical class, modelled by the same members). */
module PrefixListCidrs {
  import opened Wrappers
  import opened Errors
  import opened Enums
  import opened Text
  import VpcCidrBuilder

  /** The constructor stores both arguments verbatim as `CIDR` and `DESCRIPTION`. */
  datatype PrefixListCidr = PrefixListCidr(cidr: string, description: string)

  const Slash16Message: string := "CIDR must not be /16"

  /** `validate_cidr`: raises iff the text "/16" occurs anywhere in the literal.
      The test is on the text only: no mask width is read. */
  function ValidateCidr(entry: PrefixListCidr): (o: Outcome<Exception>)
    ensures o.Fail? <==> exists i :: OccursAt(entry.cidr, "/16", i)
    ensures o.Fail? ==> o.error == ValueError(Slash16Message)
  {
    if Contains(entry.cidr, "/16") then Fail(ValueError(Slash16Message)) else Pass
  }

  /** The characters an occurrence of "/16" covers. */
  lemma Slash16Chars(s: string, i: int)
    requires OccursAt(s, "/16", i)
    ensures s[i] == '/' && s[i + 1] == '1' && s[i + 2] == '6'
  {
    OccursAtChar(s, "/16", i, 0);
    OccursAtChar(s, "/16", i, 1);
    OccursAtChar(s, "/16", i, 2);
  }

  /** A /24 literal and the empty literal pass; a /16 literal fails, and so does
      the longer mask "/160", whose text begins with "/16". */
  lemma ValidateCidrIsTextual(description: string)
    ensures ValidateCidr(PrefixListCidr("10.0.0.0/24", description)).Pass?
    ensures ValidateCidr(PrefixListCidr("", description)).Pass?
    ensures ValidateCidr(PrefixListCidr("10.0.0.0/16", description)).Fail?
    ensures ValidateCidr(PrefixListCidr("10.0.0.0/160", description)).Fail?
  {
    assert OccursAt("10.0.0.0/16", "/16", 8);
    assert OccursAt("10.0.0.0/160", "/16", 8);
    forall i | OccursAt("10.0.0.0/24", "/16", i) ensures false {
      Slash16Chars("10.0.0.0/24", i);
    }
  }

  /** An entry equal to the LARGE_COMPANY VPC block is rejected. */
  lemma ValidateCidrRejectsLargeVpc(description: string)
    ensures ValidateCidr(PrefixListCidr(VpcCidrBuilder.Build(Some(LargeCompany)), description)).Fail?
  {
    VpcCidrBuilder.BuildMaskWidths();
    assert OccursAt("10.2.0.0/16", "/16", 8);
  }

  /** The BIG_COMPANY and SMALL_COMPANY VPC blocks (/20 and /24) are accepted:
      the check protects only the LARGE_COMPANY block. */
  lemma ValidateCidrAcceptsOtherVpcs(description: string)
    ensures ValidateCidr(PrefixListCidr(VpcCidrBuilder.Build(Some(BigCompany)), description)).Pass?
    ensures ValidateCidr(PrefixListCidr(VpcCidrBuilder.Build(Some(SmallCompany)), description)).Pass?
  {
    VpcCidrBuilder.BuildMaskWidths();
    forall i | OccursAt("172.16.32.0/20", "/16", i) ensures false {
      Slash16Chars("172.16.32.0/20", i);
    }
    forall i | OccursAt("192.168.32.0/24", "/16", i) ensures false {
      Slash16Chars("192.168.32.0/24", i);
    }
  }
}
