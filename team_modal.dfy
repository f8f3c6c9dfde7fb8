/**
 * The supplier's team window
 * (business-platform/backup/frontend-2025-10-04_12-27-42/src/components/supplier/TeamModal.tsx):
 * a list of team members, one form used both to add a member and to edit
 * one, the form's validation, the permission check boxes, deletion and the
 * member search.
 *
 * The fixture members, the `Date.now()` id, today's date and the answer
 * to the confirmation dialog are parameters.
 */
module TeamModal {
  import opened Common

  datatype Member = Member(
    id: string, name: string, email: string, phone: string, role: string, department: string,
    avatar: string, status: string, joinDate: string, lastLogin: string, permissions: seq<string>)

  /** The fields of the member form. */
  datatype MemberForm = MemberForm(
    name: string, email: string, phone: string, role: string, department: string, permissions: seq<string>)

  /** The blank form: an employee with no permissions. */
  const EmptyForm := MemberForm("", "", "", "employee", "", [])

  function FormOf(m: Member): MemberForm {
    MemberForm(m.name, m.email, m.phone, m.role, m.department, m.permissions)
  }

  // ---------------------------------------------------------------------
  // Validation
  // ---------------------------------------------------------------------

  predicate EmailTaken(members: seq<Member>, email: string) {
    exists k :: 0 <= k < |members| && members[k].email == email
  }

  /** The errors `validateMember` records, field by field, a later check on
    * the e-mail overwriting an earlier one; `adding` is "no member is being
    * edited". */
  function ErrorsOf(f: MemberForm, members: seq<Member>, adding: bool): map<string, string> {
    var e1 := if IsBlank(f.name) then map["name" := "الاسم مطلوب"] else map[];
    var e2 := if IsBlank(f.email) then e1["email" := "البريد الإلكتروني مطلوب"] else e1;
    var e3 := if IsBlank(f.department) then e2["department" := "القسم مطلوب"] else e2;
    var e4 := if f.email != "" && !WellFormedEmail(f.email) then e3["email" := "صيغة البريد الإلكتروني غير صحيحة"] else e3;
    if adding && f.email != "" && EmailTaken(members, f.email) then e4["email" := "البريد الإلكتروني موجود بالفعل"] else e4
  }

  predicate Valid(f: MemberForm, members: seq<Member>, adding: bool) {
    ErrorsOf(f, members, adding) == map[]
  }

  /** A form passes exactly when name, e-mail and department are not blank,
    * the e-mail is well formed and, when adding, no member has it yet; an
    * edit is never refused for a taken e-mail. */
  lemma ValidSpec(f: MemberForm, members: seq<Member>, adding: bool)
    ensures Valid(f, members, adding) <==>
      !IsBlank(f.name) && !IsBlank(f.email) && !IsBlank(f.department) && WellFormedEmail(f.email) &&
      (adding ==> !EmailTaken(members, f.email))
    ensures Valid(f, members, false) <==> Valid(f, [], true)
  {
    var e := ErrorsOf(f, members, adding);
    if !IsBlank(f.name) && !IsBlank(f.email) && !IsBlank(f.department) && WellFormedEmail(f.email) {
      assert f.email != "";
    }
    if IsBlank(f.name) { assert "name" in e; }
    if IsBlank(f.department) { assert "department" in e; }
    if IsBlank(f.email) || !WellFormedEmail(f.email) {
      assert f.email == "" ==> IsBlank(f.email);
      assert "email" in e;
    }
    if f.email != "" && EmailTaken(members, f.email) && adding { assert "email" in e; }
    if WellFormedEmail(f.email) { WellFormedEmailShape(f.email); }
  }

  // ---------------------------------------------------------------------
  // Permissions, roles, search
  // ---------------------------------------------------------------------

  function NotPermission(p: string): string -> bool {
    (q: string) => q != p
  }

  /** `toggleMemberPermission` on the form's list. */
  function TogglePermission(perms: seq<string>, p: string): seq<string> {
    if p in perms then Filter(perms, NotPermission(p)) else perms + [p]
  }

  /** A permission is held after the toggle exactly when it was not held
    * before; the others are untouched. Toggling twice gives back the same
    * permissions, and the same list when the permission was not held. */
  lemma TogglePermissionSpec(perms: seq<string>, p: string)
    ensures p in TogglePermission(perms, p) <==> p !in perms
    ensures forall q :: q != p ==> (q in TogglePermission(perms, p) <==> q in perms)
    ensures forall q :: q in TogglePermission(TogglePermission(perms, p), p) <==> q in perms
    ensures p !in perms ==> TogglePermission(TogglePermission(perms, p), p) == perms
  {
    forall q ensures q in Filter(perms, NotPermission(p)) <==> q in perms && q != p {
      FilterMembership(perms, NotPermission(p), q);
    }
    var once := perms + [p];
    forall q ensures q in Filter(once, NotPermission(p)) <==> q in once && q != p {
      FilterMembership(once, NotPermission(p), q);
    }
    if p !in perms {
      FilterAppend(perms, [p], NotPermission(p));
      FilterKeepsAll(perms, NotPermission(p));
      assert Filter([p], NotPermission(p)) == [];
    }
  }

  /** Toggling a held permission twice moves it to the end. */
  lemma ToggleTwiceReorders()
    ensures TogglePermission(TogglePermission(["view_orders", "view_products"], "view_orders"), "view_orders")
         == ["view_products", "view_orders"]
  {
    var perms := ["view_orders", "view_products"];
    assert "view_orders" in perms;
    assert Filter(perms, NotPermission("view_orders")) == ["view_products"] by {
      assert perms[1..] == ["view_products"];
      assert perms[1..][1..] == [];
    }
  }

  datatype RoleInfo = RoleInfo(value: string, name: string)

  const Roles: seq<RoleInfo> := [
    RoleInfo("owner", "المالك"), RoleInfo("admin", "مدير عام"), RoleInfo("manager", "مدير قسم"),
    RoleInfo("employee", "موظف"), RoleInfo("viewer", "مشاهد")]

  function HasValue(role: string): RoleInfo -> bool {
    (r: RoleInfo) => r.value == role
  }

  /** `getRoleInfo`: the role's entry, or the viewer's for an unknown role. */
  function GetRoleInfo(role: string): RoleInfo {
    var k := FirstIndex(Roles, HasValue(role));
    if k.Some? then Roles[k.value] else Roles[4]
  }

  /** A known role gets its own entry and any other role is shown as a
    * viewer. */
  lemma GetRoleInfoSpec(role: string)
    ensures GetRoleInfo(role) in Roles
    ensures role in {"owner", "admin", "manager", "employee", "viewer"} ==> GetRoleInfo(role).value == role
    ensures role !in {"owner", "admin", "manager", "employee", "viewer"} ==> GetRoleInfo(role) == RoleInfo("viewer", "مشاهد")
  {
    var k := FirstIndex(Roles, HasValue(role));
    if role !in {"owner", "admin", "manager", "employee", "viewer"} {
      assert k.None?;
    }
  }

  /** `filteredMembers`' test; an empty role choice lets every role through. */
  function Keeps(term: string, role: string): Member -> bool {
    (m: Member) => (Matches(m.name, term) || Matches(m.email, term)) && (role == "" || m.role == role)
  }

  /** A member is listed exactly when the search matches the name or the
    * e-mail and the role passes the role choice. */
  lemma FilteredSpec(members: seq<Member>, term: string, role: string)
    ensures forall m :: m in Filter(members, Keeps(term, role)) <==>
      m in members && (Matches(m.name, term) || Matches(m.email, term)) && (role == "" || m.role == role)
    ensures Filter(members, Keeps("", "")) == members
  {
    forall m ensures m in Filter(members, Keeps(term, role)) <==> m in members && Keeps(term, role)(m) {
      FilterMembership(members, Keeps(term, role), m);
    }
    forall m | m in members ensures Keeps("", "")(m) {
      EmptyQueryMatches(m.name);
    }
    FilterKeepsAll(members, Keeps("", ""));
  }

  // ---------------------------------------------------------------------
  // The list
  // ---------------------------------------------------------------------

  /** The member `handleAddMember` appends: pending, never logged in. */
  function NewMember(f: MemberForm, id: string, today: string): Member {
    Member(id, f.name, f.email, f.phone, f.role, f.department, "👤", "pending", today, "لم يسجل دخول بعد", f.permissions)
  }

  /** `{ ...m, ...newMember }` for the form's fields. */
  function Merge(m: Member, f: MemberForm): Member {
    m.(name := f.name, email := f.email, phone := f.phone, role := f.role, department := f.department,
       permissions := f.permissions)
  }

  /** `handleUpdateMember` on the list. */
  function MergeWhere(members: seq<Member>, id: string, f: MemberForm): (r: seq<Member>)
    ensures |r| == |members|
    ensures forall i :: 0 <= i < |members| ==> r[i] == if members[i].id == id then Merge(members[i], f) else members[i]
  {
    if members == [] then []
    else [if members[0].id == id then Merge(members[0], f) else members[0]] + MergeWhere(members[1..], id, f)
  }

  function NotId(id: string): Member -> bool {
    (m: Member) => m.id != id
  }

  /** Owners have no delete button. */
  predicate HasDeleteButton(m: Member) {
    m.role != "owner"
  }

  predicate UniqueIds(members: seq<Member>) {
    forall i, j :: 0 <= i < j < |members| ==> members[i].id != members[j].id
  }

  /** Deleting through the button of a member who is not an owner, in a
    * list whose ids are unique, keeps every other member and so every
    * owner. */
  lemma DeleteKeepsOwners(members: seq<Member>, k: nat)
    requires k < |members| && HasDeleteButton(members[k]) && UniqueIds(members)
    ensures forall i :: 0 <= i < |members| && i != k ==> members[i] in Filter(members, NotId(members[k].id))
    ensures members[k] !in Filter(members, NotId(members[k].id))
    ensures forall m :: m in members && m.role == "owner" ==> m in Filter(members, NotId(members[k].id))
  {
    var id := members[k].id;
    forall i | 0 <= i < |members| && i != k ensures members[i] in Filter(members, NotId(id)) {
      FilterMembership(members, NotId(id), members[i]);
    }
    FilterMembership(members, NotId(id), members[k]);
    forall m | m in members && m.role == "owner" ensures m in Filter(members, NotId(id)) {
      FilterMembership(members, NotId(id), m);
    }
  }

  class TeamEditor {
    var members: seq<Member>
    var form: MemberForm
    var editing: Option<Member>
    var errors: map<string, string>
    var showForm: bool

    constructor (initial: seq<Member>)
      ensures members == initial && form == EmptyForm && editing.None? && errors == map[] && !showForm
    {
      members := initial;
      form := EmptyForm;
      editing := None;
      errors := map[];
      showForm := false;
    }

    /** `handleAddMember`, the form's button when no member is being
      * edited: a valid form becomes a pending member at the end of the list
      * and the form is cleared and closed; otherwise only the errors
      * change. */
    method AddMember(id: string, today: string)
      requires editing.None?
      modifies this
      ensures errors == ErrorsOf(old(form), old(members), true)
      ensures Valid(old(form), old(members), true) ==>
        members == old(members) + [NewMember(old(form), id, today)] && form == EmptyForm && !showForm
      ensures !Valid(old(form), old(members), true) ==>
        members == old(members) && form == old(form) && showForm == old(showForm)
      ensures editing == old(editing)
    {
      errors := ErrorsOf(form, members, true);
      if errors == map[] {
        members := members + [NewMember(form, id, today)];
        form := EmptyForm;
        showForm := false;
      }
    }

    /** `handleEditMember`: the form is filled with the member. */
    method EditMember(m: Member)
      modifies this
      ensures editing == Some(m) && form == FormOf(m) && showForm
      ensures members == old(members) && errors == old(errors)
    {
      editing := Some(m);
      form := FormOf(m);
      showForm := true;
    }

    /** `handleUpdateMember`: a valid form is merged into the members with
      * the edited member's id, without the check for a taken e-mail. */
    method UpdateMember()
      requires editing.Some?
      modifies this
      ensures errors == ErrorsOf(old(form), old(members), false)
      ensures Valid(old(form), old(members), false) ==>
        members == MergeWhere(old(members), old(editing).value.id, old(form)) &&
        editing.None? && form == EmptyForm && !showForm
      ensures !Valid(old(form), old(members), false) ==>
        members == old(members) && form == old(form) && editing == old(editing) && showForm == old(showForm)
    {
      errors := ErrorsOf(form, members, false);
      if errors == map[] {
        members := MergeWhere(members, editing.value.id, form);
        editing := None;
        form := EmptyForm;
        showForm := false;
      }
    }

    /** `handleDeleteMember`: after a confirmed dialog the members with the
      * id go. */
    method DeleteMember(id: string, confirmed: bool)
      modifies this`members
      ensures members == if confirmed then Filter(old(members), NotId(id)) else old(members)
    {
      if confirmed {
        members := Filter(members, NotId(id));
      }
    }

    /** `toggleMemberPermission`. */
    method TogglePermissionBox(p: string)
      modifies this`form
      ensures form == old(form).(permissions := TogglePermission(old(form).permissions, p))
    {
      form := form.(permissions := TogglePermission(form.permissions, p));
    }
  }
}
