/**
 * The system form: the list of approver options (nobody, every known role,
 * every application user), the approver picker, and the submit that
 * replaces the system being edited or appends a new one.
 */
module SystemForm {
  import opened Types
  import opened Collections
  import opened Constants
  import opened DataStore
  import opened Lookups
  import opened IdGenerator
  import opened Text
  import UserList

  const SystemPrefix := "sys"

  // ---------------------------------------------------------------------
  // Approver options

  datatype OptionKind = NoApprover | RoleApprover | UserApprover

  datatype ApproverOption = ApproverOption(value: string, caption: string, kind: OptionKind)

  const NoApproverOption := ApproverOption("", "No requerit / Cap", NoApprover)

  function RoleEntry(role: string): ApproverOption
  {
    ApproverOption("Rol: " + role, "Rol: " + role, RoleApprover)
  }

  /** `user.name || user.samAccountName` */
  function DisplayName(u: User): string
  {
    StringOr(u.name, u.samAccountName)
  }

  function UserEntry(u: User): ApproverOption
  {
    ApproverOption("Usuari: " + DisplayName(u), "Usuari: " + DisplayName(u) + " (" + u.samAccountName + ")", UserApprover)
  }

  /** Every role the users hold, user by user, in list order. */
  function UserRoles(us: seq<User>): seq<string>
  {
    if |us| == 0 then [] else UserRoles(us[..|us| - 1]) + us[|us| - 1].roles
  }

  /** The role set: the declared roles, then each new role a user holds, in insertion order. */
  function RoleSet(us: seq<User>): seq<string>
  {
    Dedup(RoleValues + UserRoles(us))
  }

  /** `Array.from(uniqueRoles).sort()`: the role set in ascending string order. */
  function KnownRoles(us: seq<User>): seq<string>
  {
    SortStrings(RoleSet(us))
  }

  /** The roles offered are exactly the declared and the held ones. */
  lemma KnownRolesMembers(us: seq<User>)
    ensures forall r :: r in KnownRoles(us) <==> r in RoleValues || r in UserRoles(us)
  {
    SortStringsMembers(RoleSet(us));
  }

  /** Each role is offered once, in strictly ascending order. */
  lemma KnownRolesAscending(us: seq<User>)
    ensures StringsAscending(KnownRoles(us))
    ensures |KnownRoles(us)| == |RoleSet(us)|
  {
    SortStringsAscending(RoleSet(us));
  }

  function RoleEntries(roles: seq<string>): (r: seq<ApproverOption>)
    ensures |r| == |roles| && forall k :: 0 <= k < |roles| ==> r[k] == RoleEntry(roles[k])
  {
    seq(|roles|, k requires 0 <= k < |roles| => RoleEntry(roles[k]))
  }

  function UserEntries(us: seq<User>): (r: seq<ApproverOption>)
    ensures |r| == |us| && forall k :: 0 <= k < |us| ==> r[k] == UserEntry(us[k])
  {
    seq(|us|, k requires 0 <= k < |us| => UserEntry(us[k]))
  }

  /** "Nobody", one option per role given, then one per user. */
  function PushedOptions(roles: seq<string>, us: seq<User>): seq<ApproverOption>
  {
    [NoApproverOption] + RoleEntries(roles) + UserEntries(us)
  }

  /** The options in the order they are pushed, before de-duplication. */
  function RawOptions(us: seq<User>): seq<ApproverOption>
  {
    PushedOptions(KnownRoles(us), us)
  }

  function Values(os: seq<ApproverOption>): (r: seq<string>)
    ensures |r| == |os| && forall k :: 0 <= k < |os| ==> r[k] == os[k].value
  {
    seq(|os|, k requires 0 <= k < |os| => os[k].value)
  }

  /** The last position holding an option with that value. */
  function LastWithValue(os: seq<ApproverOption>, v: string): (r: Option<nat>)
    ensures r.Some? ==> r.value < |os| && os[r.value].value == v && forall j :: r.value < j < |os| ==> os[j].value != v
    ensures r.None? <==> forall j :: 0 <= j < |os| ==> os[j].value != v
  {
    if |os| == 0 then None
    else if os[|os| - 1].value == v then Some(|os| - 1)
    else LastWithValue(os[..|os| - 1], v)
  }

  /** The option a `Map` keyed by value keeps for v: the last one set. */
  function Representative(os: seq<ApproverOption>, v: string): (o: ApproverOption)
    requires v in Values(os)
    ensures o in os && o.value == v
  {
    var k :| 0 <= k < |os| && Values(os)[k] == v;
    assert os[k].value == v;
    os[LastWithValue(os, v).value]
  }

  /**
   * `Array.from(new Map(options.map(o => [o.value, o])).values())`: one
   * option per value, in the order each value first appears, each the last
   * option pushed with that value.
   */
  function DedupByValue(os: seq<ApproverOption>): (r: seq<ApproverOption>)
  {
    var keys := Dedup(Values(os));
    seq(|keys|, i requires 0 <= i < |keys| => Representative(os, keys[i]))
  }

  /** After de-duplication no two options share a value, and exactly the input's values remain. */
  lemma DedupByValueShape(os: seq<ApproverOption>)
    ensures var r := DedupByValue(os);
      && (forall i, j :: 0 <= i < j < |r| ==> r[i].value != r[j].value)
      && (forall v :: v in Values(r) <==> v in Values(os))
      && (forall k :: 0 <= k < |r| ==> r[k] in os)
  {
    var keys := Dedup(Values(os));
    var r := DedupByValue(os);
    assert forall k :: 0 <= k < |r| ==> r[k].value == keys[k];
    assert Values(r) == keys;
  }

  /** A set filled in list order starts with the first element. */
  lemma {:induction false} DedupHead(xs: seq<string>)
    requires |xs| > 0
    ensures |Dedup(xs)| > 0 && Dedup(xs)[0] == xs[0]
  {
    if |xs| > 1 {
      DedupHead(xs[..|xs| - 1]);
    }
  }

  /**
   * The "nobody" option is the first of the list and the only one of its
   * kind, so it sorts first whatever the labels of the others.
   */
  lemma NoApproverFirstAndAlone(us: seq<User>)
    ensures var r := DedupByValue(RawOptions(us));
      && |r| > 0 && r[0] == NoApproverOption
      && forall k :: 0 < k < |r| ==> r[k].kind != NoApprover && r[k].value != ""
  {
    var os := RawOptions(us);
    forall j | 0 < j < |os|
      ensures os[j].kind != NoApprover && os[j].value != ""
    {
      PushedAfterFirst(KnownRoles(us), us, j);
    }
    NoApproverKeptFirst(os);
  }

  /** Every pushed option after the first is a role's or a user's, with a non-empty value. */
  lemma PushedAfterFirst(roles: seq<string>, us: seq<User>, j: nat)
    requires 0 < j < |PushedOptions(roles, us)|
    ensures var o := PushedOptions(roles, us)[j]; o.kind != NoApprover && o.value != ""
  {
    var re, ue := RoleEntries(roles), UserEntries(us);
    assert PushedOptions(roles, us) == [NoApproverOption] + re + ue;
    if j <= |roles| {
      assert PushedOptions(roles, us)[j] == re[j - 1];
    } else {
      assert PushedOptions(roles, us)[j] == ue[j - 1 - |roles|];
    }
  }

  /** Keyed by value, options led by the only "nobody" option keep it first and alone. */
  lemma NoApproverKeptFirst(os: seq<ApproverOption>)
    requires |os| > 0 && os[0] == NoApproverOption
    requires forall j :: 0 < j < |os| ==> os[j].kind != NoApprover && os[j].value != ""
    ensures var r := DedupByValue(os);
      && |r| > 0 && r[0] == NoApproverOption
      && forall k :: 0 < k < |r| ==> r[k].kind != NoApprover && r[k].value != ""
  {
    var r := DedupByValue(os);
    DedupHead(Values(os));
    DedupByValueShape(os);
    assert r[0] == Representative(os, "");
    forall k | 0 < k < |r|
      ensures r[k].kind != NoApprover && r[k].value != ""
    {
      assert r[k].value != r[0].value;
      assert r[k] in os;
    }
  }

  lemma {:induction false} UserRolesHas(us: seq<User>, k: nat, role: string)
    requires k < |us| && role in us[k].roles
    ensures role in UserRoles(us)
  {
    if k < |us| - 1 {
      assert us[..|us| - 1][k] == us[k];
      UserRolesHas(us[..|us| - 1], k, role);
    }
  }

  /**
   * Every declared role and every role a user holds yields a "Rol: R"
   * option, and every user yields a "Usuari: name-or-login" option.
   */
  lemma OptionsCover(us: seq<User>)
    ensures var vs := Values(DedupByValue(RawOptions(us)));
      && (forall r :: r in RoleValues ==> "Rol: " + r in vs)
      && (forall k, r :: 0 <= k < |us| && r in us[k].roles ==> "Rol: " + r in vs)
      && (forall k :: 0 <= k < |us| ==> "Usuari: " + DisplayName(us[k]) in vs)
  {
    var os := RawOptions(us);
    var roles := KnownRoles(us);
    DedupByValueShape(os);
    PushedCover(roles, us);
    KnownRolesMembers(us);
    forall k, r | 0 <= k < |us| && r in us[k].roles
      ensures r in roles
    {
      UserRolesHas(us, k, r);
    }
  }

  /** Every role given and every user has its option among the pushes. */
  lemma PushedCover(roles: seq<string>, us: seq<User>)
    ensures var vs := Values(PushedOptions(roles, us));
      && (forall r :: r in roles ==> "Rol: " + r in vs)
      && (forall k :: 0 <= k < |us| ==> "Usuari: " + DisplayName(us[k]) in vs)
  {
    var os := PushedOptions(roles, us);
    forall r | r in roles
      ensures "Rol: " + r in Values(os)
    {
      var i :| 0 <= i < |roles| && roles[i] == r;
      PushedValueAt(roles, us, 1 + i);
    }
    forall k | 0 <= k < |us|
      ensures "Usuari: " + DisplayName(us[k]) in Values(os)
    {
      PushedValueAt(roles, us, 1 + |roles| + k);
    }
  }

  /** A value left after keying by value is the value of some option given. */
  lemma ValueSource(os: seq<ApproverOption>, v: string) returns (j: nat)
    requires v in Values(DedupByValue(os))
    ensures j < |os| && os[j].value == v
  {
    DedupByValueShape(os);
    j :| 0 <= j < |os| && Values(os)[j] == v;
  }

  /** The value of the j-th option pushed: "" first, then one per role, then one per user. */
  lemma PushedValueAt(roles: seq<string>, us: seq<User>, j: nat)
    requires j < |PushedOptions(roles, us)|
    ensures var os := PushedOptions(roles, us);
      && (j == 0 ==> os[j].value == "")
      && (0 < j <= |roles| ==> os[j].value == "Rol: " + roles[j - 1])
      && (j > |roles| ==> os[j].value == "Usuari: " + DisplayName(us[j - 1 - |roles|]))
  {
    var re, ue := RoleEntries(roles), UserEntries(us);
    assert PushedOptions(roles, us) == [NoApproverOption] + re + ue;
  }

  /** Every pushed option's value is "", a role's or a user's. */
  lemma PushedValueIs(roles: seq<string>, us: seq<User>, j: nat)
    requires j < |PushedOptions(roles, us)|
    ensures var v := PushedOptions(roles, us)[j].value;
      || v == ""
      || (exists r :: r in roles && v == "Rol: " + r)
      || (exists k :: 0 <= k < |us| && v == "Usuari: " + DisplayName(us[k]))
  {
    PushedValueAt(roles, us, j);
    if 0 < j <= |roles| {
      assert roles[j - 1] in roles;
    } else if j > |roles| {
      var k := j - 1 - |roles|;
      assert PushedOptions(roles, us)[j].value == "Usuari: " + DisplayName(us[k]);
    }
  }

  /** Conversely, every option value is "", a known role's or a user's. */
  lemma OptionsExactly(us: seq<User>, v: string)
    requires v in Values(DedupByValue(RawOptions(us)))
    ensures || v == ""
            || (exists r :: r in KnownRoles(us) && v == "Rol: " + r)
            || (exists k :: 0 <= k < |us| && v == "Usuari: " + DisplayName(us[k]))
  {
    var j := ValueSource(RawOptions(us), v);
    PushedValueIs(KnownRoles(us), us, j);
  }

  /**
   * A system whose approver is a user option is exactly what the user
   * list's delete guard looks for, so the user cannot then be deleted.
   */
  lemma UserOptionBlocksUserDelete(u: User)
    ensures UserList.NamesUser(Some(UserEntry(u).value), u)
  {
  }

  lemma UserRolesStep(us: seq<User>, i: nat)
    requires i < |us|
    ensures UserRoles(us[..i + 1]) == UserRoles(us[..i]) + us[i].roles
  {
    assert us[..i + 1][..i] == us[..i];
  }

  /** One user's roles added to the set, one by one. */
  method AddRoles(roles: seq<string>, ghost base: seq<string>, held: seq<string>) returns (r: seq<string>)
    requires roles == Dedup(base)
    ensures r == Dedup(base + held)
  {
    r := roles;
    var j := 0;
    assert base + held[..0] == base;
    while j < |held|
      invariant 0 <= j <= |held|
      invariant r == Dedup(base + held[..j])
    {
      DedupPrefixSnoc(base, held, j);
      if held[j] !in r {
        r := r + [held[j]];
      }
      j := j + 1;
    }
    assert held[..j] == held;
  }

  /** `new Set(Object.values(ROLES))`, then every role of every user added in turn. */
  method CollectRoles(users: seq<User>) returns (roles: seq<string>)
    ensures roles == RoleSet(users)
  {
    roles := Dedup(RoleValues);
    var i := 0;
    assert RoleValues + UserRoles(users[..0]) == RoleValues;
    while i < |users|
      invariant 0 <= i <= |users|
      invariant roles == Dedup(RoleValues + UserRoles(users[..i]))
    {
      UserRolesStep(users, i);
      assert RoleValues + UserRoles(users[..i + 1]) == (RoleValues + UserRoles(users[..i])) + users[i].roles;
      roles := AddRoles(roles, RoleValues + UserRoles(users[..i]), users[i].roles);
      i := i + 1;
    }
    assert users[..i] == users;
  }

  /** The pushes: the "nobody" option, one per role, one per user. */
  method PushOptions(roles: seq<string>, users: seq<User>) returns (pushed: seq<ApproverOption>)
    ensures pushed == [NoApproverOption] + RoleEntries(roles) + UserEntries(users)
  {
    pushed := [NoApproverOption];
    var k := 0;
    while k < |roles|
      invariant 0 <= k <= |roles|
      invariant pushed == [NoApproverOption] + RoleEntries(roles[..k])
    {
      assert RoleEntries(roles[..k + 1]) == RoleEntries(roles[..k]) + [RoleEntry(roles[k])];
      pushed := pushed + [RoleEntry(roles[k])];
      k := k + 1;
    }
    assert roles[..k] == roles;
    var m := 0;
    while m < |users|
      invariant 0 <= m <= |users|
      invariant pushed == [NoApproverOption] + RoleEntries(roles) + UserEntries(users[..m])
    {
      assert UserEntries(users[..m + 1]) == UserEntries(users[..m]) + [UserEntry(users[m])];
      pushed := pushed + [UserEntry(users[m])];
      m := m + 1;
    }
    assert users[..m] == users;
  }

  /** `approverOptions`: the role set, sorted, the pushes, then the `Map` keyed by value. */
  method BuildApproverOptions(users: seq<User>) returns (options: seq<ApproverOption>)
    ensures options == DedupByValue(RawOptions(users))
  {
    var roles := CollectRoles(users);
    var pushed := PushOptions(SortStrings(roles), users);
    options := DedupByValue(pushed);
  }

  // ---------------------------------------------------------------------
  // Picker

  /** Picking the selected option clears the approver; picking any other selects it. */
  function Pick(current: string, option: ApproverOption): (r: string)
    ensures option.value == current ==> r == ""
    ensures option.value != current ==> r == option.value
  {
    if option.value == current then "" else option.value
  }

  /** Picking an option that was not selected twice in a row leaves nothing selected. */
  lemma PickTwiceClears(current: string, option: ApproverOption)
    requires option.value != current
    ensures Pick(Pick(current, option), option) == ""
  {
  }

  // ---------------------------------------------------------------------
  // Submit

  datatype SystemInput = SystemInput(id: string, name: string, requiresApprovalBy: string)

  predicate ValidInput(data: SystemInput)
  {
    |data.name| >= 3
  }

  /** `requiresApprovalBy || undefined` */
  function Policy(approver: string): (r: Option<string>)
    ensures r.None? <==> approver == ""
    ensures r.Some? ==> r.value == approver
  {
    if approver == "" then None else Some(approver)
  }

  /** The record saved under an id: the typed name and the approver, an empty one dropped. */
  function Saved(id: string, data: SystemInput): System
  {
    System(id, data.name, Policy(data.requiresApprovalBy))
  }

  datatype SubmitOutcome = InvalidInput | Updated | DuplicateId | Created(id: string)

  /** Editing replaces the whole record at the system's index, with the system's own id. */
  function EditTable(ss: seq<System>, id: string, data: SystemInput): seq<System>
  {
    match SystemIndex(ss, id)
    case Some(i) => ss[i := Saved(id, data)]
    case None => ss
  }

  /**
   * Only the first system with the id changes; the id stays, the name is the
   * typed one and the approver is the typed one, an empty field dropped.
   */
  lemma EditOnlyTarget(ss: seq<System>, id: string, data: SystemInput)
    ensures var after := EditTable(ss, id, data);
      && |after| == |ss|
      && (SystemIndex(ss, id).None? ==> after == ss)
      && (SystemIndex(ss, id).Some? ==>
            var i := SystemIndex(ss, id).value;
            && after[i].id == ss[i].id && after[i].name == data.name
            && (after[i].requiresApprovalBy.None? <==> data.requiresApprovalBy == "")
            && after[i] == System(ss[i].id, data.name, Policy(data.requiresApprovalBy))
            && forall j :: 0 <= j < |ss| && j != i ==> after[j] == ss[j])
  {
  }

  predicate IdTaken(ss: seq<System>, id: string)
  {
    exists k :: 0 <= k < |ss| && ss[k].id == id
  }

  /** Only a typed id is checked against the table. */
  function CreateOutcome(ss: seq<System>, data: SystemInput, generated: string): SubmitOutcome
  {
    var id := ManualOr(data.id, generated);
    if IdTaken(ss, id) && data.id != "" then DuplicateId else Created(id)
  }

  function AfterCreate(ss: seq<System>, data: SystemInput, generated: string): seq<System>
  {
    match CreateOutcome(ss, data, generated)
    case Created(id) => ss + [Saved(id, data)]
    case _ => ss
  }

  /** A typed id already in the table is refused and nothing changes; otherwise exactly one system is appended. */
  lemma CreateCases(ss: seq<System>, data: SystemInput, generated: string)
    ensures CreateOutcome(ss, data, generated) == DuplicateId <==> data.id != "" && IdTaken(ss, data.id)
    ensures CreateOutcome(ss, data, generated) == DuplicateId ==> AfterCreate(ss, data, generated) == ss
    ensures CreateOutcome(ss, data, generated) != DuplicateId ==>
      var after := AfterCreate(ss, data, generated);
      && |after| == |ss| + 1 && after[..|ss|] == ss
      && after[|ss|].id == (if data.id != "" then data.id else generated)
      && after[|ss|].name == data.name
      && (after[|ss|].requiresApprovalBy.None? <==> data.requiresApprovalBy == "")
      && after[|ss|] == System(ManualOr(data.id, generated), data.name, Policy(data.requiresApprovalBy))
  {
  }

  /**
   * `onSubmit`: invalid input changes nothing; editing replaces the record
   * in place; creating draws a "sys" id only when none was typed, then
   * appends or refuses as `CreateOutcome` says.
   */
  method Submit(st: Store, ids: IdGen, system: Option<System>, data: SystemInput, now: nat)
    returns (outcome: SubmitOutcome)
    modifies st`systems, ids
    ensures !ValidInput(data) ==> outcome == InvalidInput && st.systems == old(st.systems)
    ensures !ValidInput(data) || system.Some? ==> ids.counters == old(ids.counters)
    ensures ValidInput(data) && system.Some? ==>
      outcome == Updated && st.systems == EditTable(old(st.systems), system.value.id, data)
    ensures ValidInput(data) && system.None? ==>
      outcome == CreateOutcome(old(st.systems), data, MockId(SystemPrefix, Count(old(ids.counters), SystemPrefix) + 1, now))
    ensures ValidInput(data) && system.None? ==>
      st.systems == AfterCreate(old(st.systems), data, MockId(SystemPrefix, Count(old(ids.counters), SystemPrefix) + 1, now))
    ensures ValidInput(data) && system.None? && data.id == "" ==>
      Count(ids.counters, SystemPrefix) == Count(old(ids.counters), SystemPrefix) + 1
    ensures data.id != "" ==> ids.counters == old(ids.counters)
    ensures OthersKept(old(ids.counters), ids.counters, {SystemPrefix})
  {
    if !ValidInput(data) {
      return InvalidInput;
    }
    if system.Some? {
      var index := SystemIndex(st.systems, system.value.id);
      if index.Some? {
        st.systems := st.systems[index.value := Saved(system.value.id, data)];
      }
      return Updated;
    }
    var id := ids.ManualOrNext(data.id, SystemPrefix, now);
    if data.id != "" && exists k :: 0 <= k < |st.systems| && st.systems[k].id == id {
      return DuplicateId;
    }
    st.systems := st.systems + [Saved(id, data)];
    outcome := Created(id);
  }
}
