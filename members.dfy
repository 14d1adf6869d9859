/** The team member list: one row per profile with its display name, phone
    and the labels of the roles the member serves in. */
module Members {
  import opened Text
  import opened Seqs
  import opened Roles
  import LoginForm

  /** A `profiles` row as the list loads it. */
  datatype Member = Member(id: string, fullName: Option<string>, phone: Option<string>, roles: RoleFlags)

  /** What the roles cell shows. */
  datatype RolesCell = NoRoleChosen | Chips(labels: seq<string>)

  /** Shown for a member without a name. */
  const NoName := "(нэр байхгүй)"

  /** The label of each role in `ROLE_LABELS`. */
  function Label(k: Role): (l: string)
    ensures |l| >= 4 && 'A' <= l[0] <= 'Z'
    ensures forall i :: 1 <= i < |l| ==> 'a' <= l[i] <= 'z'
  {
    match k
    case Lead => "Lead"
    case Vocal => "Vocal"
    case Acoustic => "Acoustic"
    case Electric => "Electric"
    case Piano => "Piano"
    case Bass => "Bass"
    case Drum => "Drum"
    case Sound => "Sound"
    case Visual => "Visual"
    case Live => "Live"
  }

  /** Pairs each role of `roles` with its label. */
  function TableOf(roles: seq<Role>): (t: seq<(Role, string)>)
    ensures |t| == |roles|
    ensures forall i :: 0 <= i < |roles| ==> t[i] == (roles[i], Label(roles[i]))
  {
    seq(|roles|, i requires 0 <= i < |roles| => (roles[i], Label(roles[i])))
  }

  /** `ROLE_LABELS`: every role with its label, in `AllRoles` order. */
  const RoleLabels: seq<(Role, string)> := TableOf(AllRoles)

  /** A label table: each entry pairs a role with that role's label, and
      every role has its entry. */
  ghost predicate LabelTable(t: seq<(Role, string)>)
  {
    (forall e :: e in t ==> e.1 == Label(e.0)) &&
    (forall k :: (k, Label(k)) in t)
  }

  lemma RoleLabelsIsLabelTable()
    ensures LabelTable(RoleLabels)
  {
    forall e | e in RoleLabels ensures e.1 == Label(e.0) {
      var i :| 0 <= i < |RoleLabels| && RoleLabels[i] == e;
    }
    forall k ensures (k, Label(k)) in RoleLabels {
      AllRolesComplete(k);
      var i :| 0 <= i < |AllRoles| && AllRoles[i] == k;
      assert RoleLabels[i] == (k, Label(k));
    }
  }

  lemma LabelInjective(a: Role, b: Role)
    requires Label(a) == Label(b)
    ensures a == b
  {
  }

  /** The second components of a list of pairs. */
  function Labels(entries: seq<(Role, string)>): (r: seq<string>)
    ensures |r| == |entries|
    ensures forall i :: 0 <= i < |entries| ==> r[i] == entries[i].1
  {
    seq(|entries|, i requires 0 <= i < |entries| => entries[i].1)
  }

  lemma {:induction false} LabelsKeepSubsequence(xs: seq<(Role, string)>, ys: seq<(Role, string)>)
    requires IsSubsequence(xs, ys)
    ensures IsSubsequence(Labels(xs), Labels(ys))
    decreases |ys|
  {
    if xs != [] {
      assert Labels(ys)[1..] == Labels(ys[1..]);
      if IsSubsequence(xs, ys[1..]) {
        LabelsKeepSubsequence(xs, ys[1..]);
      } else {
        LabelsKeepSubsequence(xs[1..], ys[1..]);
        assert Labels(xs)[1..] == Labels(xs[1..]);
      }
    }
  }

  /** The entries of table `t` whose role is set, in table order. */
  function Chosen(flags: RoleFlags, t: seq<(Role, string)>): (r: seq<(Role, string)>)
    ensures |r| <= |t|
    ensures IsSubsequence(r, t)
    ensures forall e :: e in r <==> e in t && flags.Get(e.0)
  {
    Filter(t, (e: (Role, string)) => flags.Get(e.0))
  }

  /** A role whose flag is set has its label listed. */
  lemma ChosenListed(flags: RoleFlags, t: seq<(Role, string)>, k: Role)
    requires LabelTable(t) && flags.Get(k)
    ensures Label(k) in Labels(Chosen(flags, t))
  {
    var chosen := Chosen(flags, t);
    assert (k, Label(k)) in chosen;
    var j :| 0 <= j < |chosen| && chosen[j] == (k, Label(k));
    assert Labels(chosen)[j] == Label(k);
  }

  /** Every listed label is the label of a role whose flag is set. */
  lemma ListedChosen(flags: RoleFlags, t: seq<(Role, string)>, x: string)
    requires LabelTable(t) && x in Labels(Chosen(flags, t))
    ensures exists k :: x == Label(k) && flags.Get(k)
  {
    var chosen := Chosen(flags, t);
    var j :| 0 <= j < |chosen| && Labels(chosen)[j] == x;
    assert chosen[j] in t;
    assert x == Label(chosen[j].0) && flags.Get(chosen[j].0);
  }

  /** A role's label is listed exactly when its flag is set. */
  lemma ListedIff(flags: RoleFlags, t: seq<(Role, string)>, k: Role)
    requires LabelTable(t)
    ensures Label(k) in Labels(Chosen(flags, t)) <==> flags.Get(k)
  {
    if flags.Get(k) {
      ChosenListed(flags, t, k);
    }
    if Label(k) in Labels(Chosen(flags, t)) {
      ListedChosen(flags, t, Label(k));
      var k' :| Label(k) == Label(k') && flags.Get(k');
      LabelInjective(k, k');
    }
  }

  /** No label is listed exactly when no flag is set. */
  lemma NothingListed(flags: RoleFlags, t: seq<(Role, string)>)
    requires LabelTable(t)
    ensures Labels(Chosen(flags, t)) == [] <==> forall k :: !flags.Get(k)
  {
    var r := Labels(Chosen(flags, t));
    if r != [] {
      ListedChosen(flags, t, r[0]);
    } else {
      forall k ensures !flags.Get(k) {
        ListedIff(flags, t, k);
      }
    }
  }

  /** `ROLE_LABELS.filter(({ key }) => m[key] === true).map(r => r.label)`:
      a role's label is listed exactly when its flag is set, in table order,
      at most ten labels. */
  function MemberRoles(flags: RoleFlags): (r: seq<string>)
    ensures |r| <= 10
    ensures forall k :: Label(k) in r <==> flags.Get(k)
    ensures r == [] <==> forall k :: !flags.Get(k)
  {
    RoleLabelsIsLabelTable();
    NothingListed(flags, RoleLabels);
    forall k ensures Label(k) in Labels(Chosen(flags, RoleLabels)) <==> flags.Get(k) {
      ListedIff(flags, RoleLabels, k);
    }
    Labels(Chosen(flags, RoleLabels))
  }

  /** The labels appear in table order. */
  lemma MemberRolesInTableOrder(flags: RoleFlags)
    ensures IsSubsequence(MemberRoles(flags), Labels(RoleLabels))
  {
    LabelsKeepSubsequence(Chosen(flags, RoleLabels), RoleLabels);
  }

  /** The roles cell: the placeholder when no role is set, the chips otherwise. */
  function RolesCellOf(flags: RoleFlags): (c: RolesCell)
    ensures c == NoRoleChosen <==> forall k :: !flags.Get(k)
    ensures c.Chips? ==> c.labels == MemberRoles(flags) && c.labels != []
  {
    var labels := MemberRoles(flags);
    if |labels| == 0 then
      NoRoleChosen
    else
      Chips(labels)
  }

  /** `full_name || '(нэр байхгүй)'` */
  function DisplayName(fullName: Option<string>): (r: string)
    ensures fullName.Some? && fullName.value != [] ==> r == fullName.value
    ensures fullName.None? || fullName.value == [] ==> r == NoName
  {
    if fullName.Some? && Truthy(fullName.value) then fullName.value else NoName
  }

  /** `phone || ''` */
  function DisplayPhone(phone: Option<string>): (r: string)
    ensures r == phone.OrElse("")
  {
    if phone.Some? && Truthy(phone.value) then phone.value else ""
  }

  /** A member who signed up through the login page is listed with the
      trimmed name they gave (or the placeholder), the trimmed phone, and
      exactly the roles they ticked. */
  lemma SignupShownInList(userId: string, fullName: string, phone: string, roles: RoleFlags)
    ensures var p := LoginForm.ProfilePayload(userId, fullName, phone, roles);
            var m := Member(p.id, Some(p.fullName), p.phone, p.roles);
            DisplayName(m.fullName) == (if IsBlank(fullName) then NoName else Trim(fullName)) &&
            DisplayPhone(m.phone) == Trim(phone) &&
            (forall k :: Label(k) in MemberRoles(m.roles) <==> roles.Get(k))
  {
  }
}
