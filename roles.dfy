/** The four artifact roles, always handled in this order. */
module Roles {

  datatype Role = Det | Cls | Rec | Keys {

    /** The tag the resolver and the validator use for the role. */
    function Tag(): string {
      match this
      case Det => "det"
      case Cls => "cls"
      case Rec => "rec"
      case Keys => "keys"
    }
  }

  /** The fixed role order: det, cls, rec, keys. */
  const AllRoles: seq<Role> := [Det, Cls, Rec, Keys]

  /** Every role appears in `AllRoles` exactly once. */
  lemma AllRolesEnumerates(role: Role)
    ensures role in AllRoles
    ensures |AllRoles| == 4
    ensures forall i, j :: 0 <= i < j < |AllRoles| ==> AllRoles[i] != AllRoles[j]
  {
  }

  /** The first letter of a role's tag tells the role. */
  lemma TagDeterminesRole(r1: Role, r2: Role)
    ensures r1.Tag()[0] == r2.Tag()[0] <==> r1 == r2
  {
  }
}
