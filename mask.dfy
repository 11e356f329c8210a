/** The phone masking the call and emergency-contact replies use. */
module Masking {
  import opened Base

  /** `p.slice(0, 2) + '****' + p.slice(-2)`. */
  function Mask(p: string): (m: string)
    ensures |p| >= 4 ==> |m| == 8 && m[..2] == p[..2] && m[2..6] == "****" && m[6..] == p[|p| - 2..]
  {
    SliceHead(p, 2) + "****" + SliceTail(p, 2)
  }

  /** The mask shows nothing of a phone but its first two and last two characters:
      phones that agree on those are masked alike. */
  lemma MaskRevealsOnlyEdges(p: string, q: string)
    requires |p| >= 4 && |q| >= 4
    requires p[..2] == q[..2] && p[|p| - 2..] == q[|q| - 2..]
    ensures Mask(p) == Mask(q)
  {
    var m, n := Mask(p), Mask(q);
    assert m == m[..2] + m[2..6] + m[6..];
    assert n == n[..2] + n[2..6] + n[6..];
  }
}
