/** The ten service roles a team member can hold. The sign-up form keeps them
    as an object of ten booleans, the `profiles` table as ten boolean columns. */
module Roles {

  datatype Role = Lead | Vocal | Acoustic | Electric | Piano | Bass | Drum | Sound | Visual | Live

  /** Every role, in the order the sign-up form and the member list use. */
  const AllRoles: seq<Role> := [Lead, Vocal, Acoustic, Electric, Piano, Bass, Drum, Sound, Visual, Live]

  lemma AllRolesComplete(k: Role)
    ensures k in AllRoles
  {
  }

  datatype RoleFlags = RoleFlags(
    lead: bool, vocal: bool, acoustic: bool, electric: bool, piano: bool,
    bass: bool, drum: bool, sound: bool, visual: bool, live: bool)
  {
    /** `flags[k]` */
    function Get(k: Role): bool
    {
      match k
      case Lead => lead
      case Vocal => vocal
      case Acoustic => acoustic
      case Electric => electric
      case Piano => piano
      case Bass => bass
      case Drum => drum
      case Sound => sound
      case Visual => visual
      case Live => live
    }

    /** `{ ...flags, [k]: v }` */
    function Set(k: Role, v: bool): (r: RoleFlags)
      ensures r.Get(k) == v
      ensures forall j :: j != k ==> r.Get(j) == Get(j)
    {
      var r := RoleFlags(
        if k == Lead then v else lead,
        if k == Vocal then v else vocal,
        if k == Acoustic then v else acoustic,
        if k == Electric then v else electric,
        if k == Piano then v else piano,
        if k == Bass then v else bass,
        if k == Drum then v else drum,
        if k == Sound then v else sound,
        if k == Visual then v else visual,
        if k == Live then v else live);
      AgreeOffRole(this, r, k);
      r
    }
  }

  /** Records that agree field by field away from role `k` agree on every
      other role. */
  lemma AgreeOffRole(f: RoleFlags, r: RoleFlags, k: Role)
    requires k != Lead ==> r.lead == f.lead
    requires k != Vocal ==> r.vocal == f.vocal
    requires k != Acoustic ==> r.acoustic == f.acoustic
    requires k != Electric ==> r.electric == f.electric
    requires k != Piano ==> r.piano == f.piano
    requires k != Bass ==> r.bass == f.bass
    requires k != Drum ==> r.drum == f.drum
    requires k != Sound ==> r.sound == f.sound
    requires k != Visual ==> r.visual == f.visual
    requires k != Live ==> r.live == f.live
    ensures forall j :: j != k ==> r.Get(j) == f.Get(j)
  {
    forall j | j != k ensures r.Get(j) == f.Get(j) {
      match j
      case Lead => case Vocal => case Acoustic => case Electric => case Piano => case Bass => case Drum => case Sound => case Visual => case Live =>
    }
  }

  /** Two flag records that agree on every role are the same record. */
  lemma FlagsExtensional(a: RoleFlags, b: RoleFlags)
    requires forall k :: a.Get(k) == b.Get(k)
    ensures a == b
  {
    assert a.Get(Lead) == b.Get(Lead);
    assert a.Get(Vocal) == b.Get(Vocal);
    assert a.Get(Acoustic) == b.Get(Acoustic);
    assert a.Get(Electric) == b.Get(Electric);
    assert a.Get(Piano) == b.Get(Piano);
    assert a.Get(Bass) == b.Get(Bass);
    assert a.Get(Drum) == b.Get(Drum);
    assert a.Get(Sound) == b.Get(Sound);
    assert a.Get(Visual) == b.Get(Visual);
    assert a.Get(Live) == b.Get(Live);
  }

  /** The initial and reset value: every role `false`. */
  const NoRoles: RoleFlags := RoleFlags(false, false, false, false, false, false, false, false, false, false)
}
