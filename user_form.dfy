/**
 * The application-user form: validation of the fields, the comma-separated
 * roles text, the NIF normalisation, the department picker and the submit
 * that either overwrites the user being edited or appends a new one.
 */
module UserForm {
  import opened Types
  import opened Text
  import opened Collections
  import opened Nif
  import opened DataStore
  import opened Lookups
  import opened IdGenerator

  const UserPrefix := "user"
  const AvatarBase := "https://placehold.co/100x100.png?text="

  /** The form's values as typed. */
  datatype UserInput = UserInput(
    samAccountName: string,
    name: string,
    email: string,
    nif: string,
    roles: string,
    departments: seq<string>)

  /**
   * The schema: login and name of at least three characters, a NIF that is
   * empty or a valid NIF/NIE, a non-empty roles text and at least one
   * department. The e-mail format is not part of this predicate.
   */
  predicate ValidInput(data: UserInput)
  {
    && |data.samAccountName| >= 3
    && |data.name| >= 3
    && (data.nif == "" || ValidNif(data.nif))
    && |data.roles| >= 1
    && |data.departments| >= 1
  }

  // ---------------------------------------------------------------------
  // Roles text

  /** A role as the parser can produce it: non-empty, no comma, no surrounding spaces. */
  predicate CleanRole(r: string)
  {
    r != [] && ',' !in r && !IsSpace(r[0]) && !IsSpace(r[|r| - 1])
  }

  /** A comma-free piece that does not trim to nothing trims to a clean role. */
  lemma TrimmedPieceClean(piece: string)
    requires ',' !in piece && Trim(piece) != []
    ensures CleanRole(Trim(piece))
  {
    if ',' in Trim(piece) {
      TrimKeepsChars(piece, ',');
    }
  }

  /** Trim every piece and keep the non-empty ones, in order. */
  function CleanPieces(pieces: seq<string>): (r: seq<string>)
    requires forall k :: 0 <= k < |pieces| ==> ',' !in pieces[k]
    ensures |r| <= |pieces|
    ensures forall k :: 0 <= k < |r| ==> CleanRole(r[k])
  {
    if |pieces| == 0 then []
    else
      var rest := CleanPieces(pieces[1..]);
      if Trim(pieces[0]) == [] then rest
      else
        TrimmedPieceClean(pieces[0]);
        [Trim(pieces[0])] + rest
  }

  /** The first piece contributes its trimmed text, or nothing when that is empty. */
  lemma CleanPiecesCons(piece: string, pieces: seq<string>)
    requires ',' !in piece && forall k :: 0 <= k < |pieces| ==> ',' !in pieces[k]
    ensures CleanPieces([piece] + pieces)
         == (if Trim(piece) == [] then [] else [Trim(piece)]) + CleanPieces(pieces)
  {
    assert ([piece] + pieces)[1..] == pieces;
  }

  /** `roles.split(",").map(trim).filter(nonEmpty)`. */
  function ParseRoles(s: string): (r: seq<string>)
    ensures forall k :: 0 <= k < |r| ==> CleanRole(r[k])
  {
    CleanPieces(Split(s, ','))
  }

  /** The text the form shows for a list of roles. */
  function RolesText(roles: seq<string>): string
  {
    Join(roles, ", ")
  }

  /** Leading spaces and one clean role parse to just that role. */
  lemma ParseSingle(sp: string, role: string)
    requires forall i :: 0 <= i < |sp| ==> IsSpace(sp[i])
    requires CleanRole(role)
    ensures ParseRoles(sp + role) == [role]
  {
    assert ',' !in sp;
    TrimAfterSpaces(sp, role);
    SplitNoSeparator(sp + role, ',');
    CleanPiecesCons(sp + role, []);
  }

  /** Leading spaces, a clean role and ", " contribute that role and leave the rest to parse on its own. */
  lemma ParseStep(sp: string, role: string, rest: string)
    requires forall i :: 0 <= i < |sp| ==> IsSpace(sp[i])
    requires CleanRole(role)
    ensures ParseRoles(sp + (role + ", " + rest)) == [role] + ParseRoles(" " + rest)
  {
    var first := sp + role;
    var tail := Split(" " + rest, ',');
    assert Split(sp + (role + ", " + rest), ',') == [first] + tail by {
      assert ',' !in sp;
      assert sp + (role + ", " + rest) == first + [','] + (" " + rest);
      SplitAtFirst(first, " " + rest, ',');
    }
    assert CleanPieces([first] + tail) == [role] + CleanPieces(tail) by {
      assert ',' !in sp;
      TrimAfterSpaces(sp, role);
      CleanPiecesCons(first, tail);
    }
  }

  lemma {:induction false} ParseSpacedJoin(sp: string, roles: seq<string>)
    requires forall i :: 0 <= i < |sp| ==> IsSpace(sp[i])
    requires |roles| >= 1 && forall k :: 0 <= k < |roles| ==> CleanRole(roles[k])
    ensures ParseRoles(sp + RolesText(roles)) == roles
    decreases |roles|
  {
    if |roles| == 1 {
      assert RolesText(roles) == roles[0];
      ParseSingle(sp, roles[0]);
    } else {
      var rest := RolesText(roles[1..]);
      assert ParseRoles(sp + RolesText(roles)) == [roles[0]] + ParseRoles(" " + rest) by {
        assert RolesText(roles) == roles[0] + ", " + rest;
        ParseStep(sp, roles[0], rest);
      }
      ParseSpacedJoin(" ", roles[1..]);
      assert roles == [roles[0]] + roles[1..];
    }
  }

  /** A user's roles shown as the form's default text parse back to the same list. */
  lemma RolesRoundTrip(roles: seq<string>)
    requires |roles| >= 1 && forall k :: 0 <= k < |roles| ==> CleanRole(roles[k])
    ensures ParseRoles(RolesText(roles)) == roles
  {
    ParseSpacedJoin("", roles);
    assert "" + RolesText(roles) == RolesText(roles);
  }

  /** `data.nif === "" ? undefined : data.nif` */
  function NifValue(nif: string): (r: Option<string>)
    ensures r.None? <==> nif == ""
    ensures r.Some? ==> r.value == nif
  {
    if nif == "" then None else Some(nif)
  }

  // ---------------------------------------------------------------------
  // Department picker

  /** Choosing a department in the picker: removed when selected, appended when not. */
  function Toggle(selected: seq<string>, name: string): (r: seq<string>)
    ensures name in r <==> name !in selected
    ensures forall d :: d != name ==> (d in r <==> d in selected)
    ensures name !in selected ==> r == selected + [name]
  {
    if name in selected then Remove(selected, name) else selected + [name]
  }

  /** Removing a name that was just appended gives the list back. */
  lemma {:induction false} RemoveAppended(xs: seq<string>, x: string)
    requires x !in xs
    ensures Remove(xs + [x], x) == xs
    decreases |xs|
  {
    if |xs| == 0 {
      assert [x][1..] == [];
    } else {
      assert (xs + [x])[1..] == xs[1..] + [x];
      RemoveAppended(xs[1..], x);
      assert xs == [xs[0]] + xs[1..];
    }
  }

  /** Picking an unselected department twice leaves the selection as it was. */
  lemma ToggleTwice(selected: seq<string>, name: string)
    requires name !in selected
    ensures Toggle(Toggle(selected, name), name) == selected
  {
    RemoveAppended(selected, name);
  }

  /** The badge's remove button: every occurrence of the name goes, nothing else moves. */
  function RemoveBadge(selected: seq<string>, name: string): (r: seq<string>)
    ensures name !in r
    ensures forall d :: d != name ==> (d in r <==> d in selected)
  {
    Remove(selected, name)
  }

  // ---------------------------------------------------------------------
  // Submit

  /** `name.substring(0, 2).toUpperCase() || 'U'` */
  function AvatarText(name: string): (r: string)
    ensures |name| >= 2 ==> |r| == 2
    ensures name == "" ==> r == "U"
  {
    var t := ToUpper(Take(name, 2));
    if t == "" then "U" else t
  }

  /** A non-empty name shows its first two characters, or its only one, each upper-cased. */
  lemma AvatarTextChars(name: string)
    requires name != ""
    ensures |AvatarText(name)| == (if |name| >= 2 then 2 else 1)
    ensures forall k :: 0 <= k < |AvatarText(name)| ==> AvatarText(name)[k] == UpperChar(name[k])
  {
  }

  /** The spread update of the user being edited. */
  function Edited(stored: User, user: User, data: UserInput): User
  {
    stored.(
      name := Some(data.name), email := Some(data.email), nif := NifValue(data.nif),
      roles := ParseRoles(data.roles), departments := data.departments,
      id := user.id, avatarUrl := user.avatarUrl)
  }

  /** The users table after saving an edit of `user`. */
  function EditTable(us: seq<User>, user: User, data: UserInput): seq<User>
  {
    match UserIndex(us, user.id)
    case Some(i) => us[i := Edited(us[i], user, data)]
    case None => us
  }

  /**
   * Only the first entry with the user's id changes: name, e-mail, NIF,
   * roles and departments come from the form; id, avatar and login are kept.
   * An unknown id changes nothing.
   */
  lemma EditOnlyTarget(us: seq<User>, user: User, data: UserInput)
    ensures var after := EditTable(us, user, data);
      && |after| == |us|
      && (UserIndex(us, user.id).None? ==> after == us)
      && (UserIndex(us, user.id).Some? ==>
            var i := UserIndex(us, user.id).value;
            && after[i].name == Some(data.name) && after[i].email == Some(data.email)
            && after[i].nif == NifValue(data.nif) && after[i].roles == ParseRoles(data.roles)
            && after[i].departments == data.departments
            && after[i].id == us[i].id && after[i].samAccountName == us[i].samAccountName
            && after[i].avatarUrl == user.avatarUrl
            && forall j :: 0 <= j < |us| && j != i ==> after[j] == us[j])
  {
  }

  /** The values the form starts with when editing `u`. */
  function Defaults(u: User): UserInput
  {
    UserInput(u.samAccountName, StringOr(u.name, ""), StringOr(u.email, ""), StringOr(u.nif, ""),
      RolesText(u.roles), u.departments)
  }

  /**
   * Opening a stored user and saving without touching anything changes
   * nothing, provided its fields are ones the form can reproduce: a
   * non-empty name and e-mail, a NIF that is absent or non-empty, and roles
   * the parser would produce.
   */
  lemma UntouchedEditKeepsUser(us: seq<User>, u: User)
    requires UserIndex(us, u.id).Some? && us[UserIndex(us, u.id).value] == u
    requires u.name.Some? && u.name.value != "" && u.email.Some? && u.email.value != ""
    requires u.nif != Some("")
    requires |u.roles| >= 1 && forall k :: 0 <= k < |u.roles| ==> CleanRole(u.roles[k])
    ensures EditTable(us, u, Defaults(u)) == us
  {
    RolesRoundTrip(u.roles);
  }

  /** The user a create appends. */
  function NewUser(id: string, data: UserInput): User
  {
    User(id, data.samAccountName, Some(data.name), Some(data.email), Some(AvatarBase + AvatarText(data.name)),
      ParseRoles(data.roles), data.departments, NifValue(data.nif))
  }

  /** A create does not look for an existing login: two users may end up sharing one. */
  lemma CreateAllowsDuplicateLogin(us: seq<User>, id: string, data: UserInput, k: nat)
    requires k < |us| && us[k].samAccountName == data.samAccountName
    ensures var after := us + [NewUser(id, data)];
      after[k].samAccountName == after[|us|].samAccountName && k != |us|
  {
  }

  datatype SubmitOutcome = InvalidInput | Updated | Created(id: string)

  /**
   * `onSubmit`: invalid input changes nothing; in edit mode the stored user
   * is overwritten; otherwise a user with a fresh "USER_…" id is appended.
   */
  method Submit(st: Store, ids: IdGen, user: Option<User>, data: UserInput, now: nat) returns (outcome: SubmitOutcome)
    modifies st`users, ids
    ensures !ValidInput(data) ==> outcome == InvalidInput && st.users == old(st.users) && ids.counters == old(ids.counters)
    ensures ValidInput(data) && user.Some? ==>
      outcome == Updated && st.users == EditTable(old(st.users), user.value, data) && ids.counters == old(ids.counters)
    ensures ValidInput(data) && user.None? ==>
      outcome == Created(MockId(UserPrefix, Count(old(ids.counters), UserPrefix) + 1, now))
    ensures ValidInput(data) && user.None? ==> st.users == old(st.users) + [NewUser(outcome.id, data)]
    ensures ValidInput(data) && user.None? ==> Count(ids.counters, UserPrefix) == Count(old(ids.counters), UserPrefix) + 1
    ensures OthersKept(old(ids.counters), ids.counters, {UserPrefix})
  {
    if !ValidInput(data) {
      return InvalidInput;
    }
    if user.Some? {
      SaveEdit(st, user.value, data);
      return Updated;
    }
    var id := CreateUser(st, ids, data, now);
    outcome := Created(id);
  }

  /** The edit branch: overwrite the stored entry in place. */
  method SaveEdit(st: Store, user: User, data: UserInput)
    modifies st`users
    ensures st.users == EditTable(old(st.users), user, data)
  {
    var index := UserIndex(st.users, user.id);
    if index.Some? {
      st.users := st.users[index.value := Edited(st.users[index.value], user, data)];
    }
  }

  /** The create branch: draw a "user" id and append. */
  method CreateUser(st: Store, ids: IdGen, data: UserInput, now: nat) returns (id: string)
    modifies st`users, ids
    ensures id == MockId(UserPrefix, Count(old(ids.counters), UserPrefix) + 1, now)
    ensures st.users == old(st.users) + [NewUser(id, data)]
    ensures Count(ids.counters, UserPrefix) == Count(old(ids.counters), UserPrefix) + 1
    ensures OthersKept(old(ids.counters), ids.counters, {UserPrefix})
  {
    id := ids.Next(UserPrefix, now);
    st.users := st.users + [NewUser(id, data)];
  }
}
