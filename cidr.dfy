/** IPv4 address blocks in CIDR prefix notation (section 3.1 of RFC 4632):
    a dotted-quad network address, a slash and the prefix length. The source
    builds these literals as strings; this module reads them as address/mask
    pairs so that containment and overlap can be stated. */
module Cidr {
  import opened Wrappers
  import opened Text

  /** The block `a.b.c.d/prefixLength`. */
  datatype Block = Block(a: nat, b: nat, c: nat, d: nat, prefixLength: nat)

  /** Octets fit in a byte, the prefix is at most 32 bits long and the address
      has no bits set past the prefix. */
  ghost predicate Valid(blk: Block)
  {
    && blk.a < 256 && blk.b < 256 && blk.c < 256 && blk.d < 256
    && blk.prefixLength <= 32
    && Address(blk) % Size(blk) == 0
  }

  function Pow2(n: nat): (r: nat)
    ensures r > 0
  {
    if n == 0 then 1 else 2 * Pow2(n - 1)
  }

  /** The 32-bit network address as a number. */
  function Address(blk: Block): nat
  {
    ((blk.a * 256 + blk.b) * 256 + blk.c) * 256 + blk.d
  }

  /** The number of addresses in the block. */
  function Size(blk: Block): nat
    requires blk.prefixLength <= 32
  {
    Pow2(32 - blk.prefixLength)
  }

  /** The last address of the block. */
  function Last(blk: Block): nat
    requires blk.prefixLength <= 32
  {
    Address(blk) + Size(blk) - 1
  }

  /** Every address of `inner` is an address of `outer`. */
  ghost predicate Within(inner: Block, outer: Block)
    requires inner.prefixLength <= 32 && outer.prefixLength <= 32
  {
    Address(outer) <= Address(inner) && Last(inner) <= Last(outer)
  }

  /** No address belongs to both blocks. */
  ghost predicate Disjoint(x: Block, y: Block)
    requires x.prefixLength <= 32 && y.prefixLength <= 32
  {
    Last(x) < Address(y) || Last(y) < Address(x)
  }

  /** The CIDR literal of a block, such as "172.16.32.0/20". */
  function Render(blk: Block): string
  {
    NatToString(blk.a) + ("." + (NatToString(blk.b) + ("." + (NatToString(blk.c) + ("." +
      (NatToString(blk.d) + ("/" + NatToString(blk.prefixLength))))))))
  }

  /** Reads a number followed by the separator `sep`. */
  function ReadField(s: string, sep: char): Option<(nat, string)>
  {
    match ReadNat(s)
    case None => None
    case Some((n, rest)) =>
      if |rest| > 0 && rest[0] == sep then Some((n, rest[1..])) else None
  }

  /** Reads a CIDR literal back into a block; `None` when it is not one. */
  function Parse(s: string): Option<Block>
  {
    match ReadField(s, '.')
    case None => None
    case Some((a, s1)) =>
      match ReadField(s1, '.')
      case None => None
      case Some((b, s2)) =>
        match ReadField(s2, '.')
        case None => None
        case Some((c, s3)) =>
          match ReadField(s3, '/')
          case None => None
          case Some((d, s4)) =>
            match ReadNat(s4)
            case None => None
            case Some((len, rest)) => if rest == [] then Some(Block(a, b, c, d, len)) else None
  }

  lemma ReadFieldOfNatToString(n: nat, sep: char, rest: string)
    requires !IsDigit(sep)
    ensures ReadField(NatToString(n) + ([sep] + rest), sep) == Some((n, rest))
  {
    ReadNatOfNatToString(n, [sep] + rest);
    assert ([sep] + rest)[1..] == rest;
  }

  /** Reading a rendered literal gives back the block it was rendered from. */
  lemma ParseRender(blk: Block)
    ensures Parse(Render(blk)) == Some(blk)
  {
    var last := NatToString(blk.prefixLength);
    var s4 := NatToString(blk.d) + ("/" + last);
    var s3 := NatToString(blk.c) + ("." + s4);
    var s2 := NatToString(blk.b) + ("." + s3);
    assert Render(blk) == NatToString(blk.a) + ("." + s2);
    ReadFieldOfNatToString(blk.a, '.', s2);
    ReadFieldOfNatToString(blk.b, '.', s3);
    ReadFieldOfNatToString(blk.c, '.', s4);
    ReadFieldOfNatToString(blk.d, '/', last);
    ReadNatOfNatToString(blk.prefixLength, []);
    assert last + [] == last;
  }

  /** Distinct blocks have distinct literals. */
  lemma RenderInjective(x: Block, y: Block)
    requires Render(x) == Render(y)
    ensures x == y
  {
    ParseRender(x);
    ParseRender(y);
  }

  /** The three private blocks of section 3 of RFC 1918. */
  const Private10: Block := Block(10, 0, 0, 0, 8)
  const Private172: Block := Block(172, 16, 0, 0, 12)
  const Private192: Block := Block(192, 168, 0, 0, 16)
}
