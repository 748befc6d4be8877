/** `TTVpnPolicy`: which network a socket is bound to. */
module VpnPolicy {
  import opened Texts

  datatype Policy = Unset | Os | PreferPhysical | ForcePhysical

  /** `std::to_string` of the policy's enum value. */
  function PolicyText(p: Policy): Text {
    match p
    case Unset => [45, 49]
    case Os => [48]
    case PreferPhysical => [49]
    case ForcePhysical => [50]
  }

  lemma PolicyTextInjective(p: Policy, q: Policy)
    requires PolicyText(p) == PolicyText(q)
    ensures p == q
  {
    assert PolicyText(p)[0] == PolicyText(q)[0];
  }
}
