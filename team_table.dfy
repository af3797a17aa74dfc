/** The team table (src/components/team/team-table.tsx): avatar initials,
    what each row lets an administrator do (never to their own row), the
    role badge, and the remove-confirmation and role-update state. */
module TeamTable {
  import opened Values
  import opened Text

  datatype Member = Member(id: string, name: string, email: string, role: string)

  /** `n[0]` of each space-separated part; an empty part contributes
      nothing, as `join` renders `undefined` as the empty string. */
  function FirstLetters(parts: seq<string>): string {
    if parts == [] then "" else (if parts[0] == "" then "" else [parts[0][0]]) + FirstLetters(parts[1..])
  }

  /** `getInitials(name)`: the first letters, in upper case, at most two. */
  function Initials(name: string): (r: string)
    ensures |r| <= 2
  {
    var letters := ToUpper(FirstLetters(Split(name, ' ')));
    if |letters| <= 2 then letters else letters[..2]
  }

  /** A first and a last name give the two upper-cased first letters, and
      a single word its first letter. */
  lemma InitialsOfNames(first: string, last: string)
    requires first != "" && last != "" && ' ' !in first && ' ' !in last
    ensures Initials(first + " " + last) == [UpperChar(first[0]), UpperChar(last[0])]
    ensures Initials(first) == [UpperChar(first[0])]
    ensures Initials(first + "  " + last) == Initials(first + " " + last)
  {
    SplitOneSpace(first, last);
    SplitTwoSpaces(first, last);
    SplitNoSep(first, ' ');
    LettersOfWords(first, last);
    var u := [UpperChar(first[0]), UpperChar(last[0])];
    assert ToUpper([first[0], last[0]]) == u;
    assert ToUpper([first[0]]) == [UpperChar(first[0])];
  }

  lemma SplitOneSpace(first: string, last: string)
    requires ' ' !in first && ' ' !in last
    ensures Split(first + " " + last, ' ') == [first, last]
  {
    assert first + " " + last == first + [' '] + last;
    SplitAppend(first, ' ', last);
    SplitNoSep(first, ' ');
    SplitNoSep(last, ' ');
  }

  lemma SplitTwoSpaces(first: string, last: string)
    requires ' ' !in first && ' ' !in last
    ensures Split(first + "  " + last, ' ') == [first, "", last]
  {
    assert first + "  " + last == first + [' '] + ([] + [' '] + last);
    SplitAppend(first, ' ', [] + [' '] + last);
    SplitAppend([], ' ', last);
    SplitNoSep(first, ' ');
    SplitNoSep(last, ' ');
    SplitNoSep([], ' ');
  }

  lemma LettersOfWords(first: string, last: string)
    requires first != "" && last != ""
    ensures FirstLetters([first, last]) == [first[0], last[0]]
    ensures FirstLetters([first, "", last]) == [first[0], last[0]]
    ensures FirstLetters([first]) == [first[0]]
  {
    assert [first, last][1..] == [last];
    assert [first, "", last][1..] == ["", last];
    assert ["", last][1..] == [last];
    assert [last][1..] == [];
    assert [first][1..] == [];
    assert FirstLetters([last]) == [last[0]] + "";
    assert FirstLetters([first]) == [first[0]] + "";
    assert FirstLetters(["", last]) == "" + FirstLetters([last]);
  }

  /** Every initial is the upper-cased first letter of some part. */
  lemma {:induction false} LettersFromParts(parts: seq<string>, k: nat)
    requires k < |FirstLetters(parts)|
    ensures exists i :: 0 <= i < |parts| && parts[i] != "" && FirstLetters(parts)[k] == parts[i][0]
  {
    var rest := parts[1..];
    if parts[0] == "" {
      LettersFromParts(rest, k);
      var i :| 0 <= i < |rest| && rest[i] != "" && FirstLetters(rest)[k] == rest[i][0];
      assert parts[i + 1] == rest[i];
    } else if k > 0 {
      LettersFromParts(rest, k - 1);
      var i :| 0 <= i < |rest| && rest[i] != "" && FirstLetters(rest)[k - 1] == rest[i][0];
      assert parts[i + 1] == rest[i];
    }
  }

  /** `roleBadgeVariant[member.role]`, `undefined` for another role. */
  function BadgeVariant(role: string): Option<string> {
    if role == "ADMIN" then Some("default")
    else if role == "MANAGER" || role == "MEMBER" then Some("secondary")
    else None
  }

  datatype RoleCell = RoleSelect(value: string) | RoleBadge(variant: Option<string>, shield: bool, text: string)

  /** The last column: absent for non-administrators, empty on one's own
      row, and the remove menu otherwise. */
  datatype ActionsCell = NoColumn | EmptyCell | RemoveMenu

  datatype Row = Row(initials: string, you: bool, role: RoleCell, actions: ActionsCell)

  function RowOf(m: Member, currentUserId: string, isAdmin: bool): Row {
    var isSelf := m.id == currentUserId;
    Row(Initials(m.name), isSelf,
        if isAdmin && !isSelf then RoleSelect(m.role) else RoleBadge(BadgeVariant(m.role), m.role == "ADMIN", m.role),
        if !isAdmin then NoColumn else if isSelf then EmptyCell else RemoveMenu)
  }

  /** A member can be re-roled or removed exactly when the viewer is an
      administrator and the row is someone else's; one's own row is marked
      `(you)` and shows the role as a badge. */
  lemma RowPowers(m: Member, currentUserId: string, isAdmin: bool)
    ensures RowOf(m, currentUserId, isAdmin).role.RoleSelect? <==> isAdmin && m.id != currentUserId
    ensures RowOf(m, currentUserId, isAdmin).actions == RemoveMenu <==> isAdmin && m.id != currentUserId
    ensures RowOf(m, currentUserId, isAdmin).you <==> m.id == currentUserId
    ensures RowOf(m, currentUserId, isAdmin).actions == NoColumn <==> !isAdmin
    ensures m.id == currentUserId ==> RowOf(m, currentUserId, isAdmin).role == RoleBadge(BadgeVariant(m.role), m.role == "ADMIN", m.role)
  {
  }

  /** The table's own state: the member awaiting removal confirmation and
      the member whose role update is in flight. */
  class State {
    var deleteTarget: Option<Member>
    var updatingRole: Option<string>

    constructor()
      ensures deleteTarget == None && updatingRole == None
    {
      deleteTarget := None;
      updatingRole := None;
    }

    /** The confirmation dialog is open exactly while a member awaits
        confirmation. */
    predicate DialogOpen()
      reads this
    {
      deleteTarget.Some?
    }

    /** "Remove" in a row's menu opens the dialog on that member. */
    method AskRemove(m: Member)
      modifies this`deleteTarget
      ensures deleteTarget == Some(m) && DialogOpen()
    {
      deleteTarget := Some(m);
    }

    /** Cancel, or the dialog closing by itself. */
    method CloseDialog()
      modifies this`deleteTarget
      ensures deleteTarget == None && !DialogOpen()
    {
      deleteTarget := None;
    }

    /** The confirm button: hand the target's id to `onRemove`; with no
        target nothing happens. The dialog stays open on its target while
        the removal is awaited. */
    method ConfirmRemove() returns (removed: Option<string>)
      ensures deleteTarget.None? ==> removed == None
      ensures deleteTarget.Some? ==> removed == Some(deleteTarget.value.id) && DialogOpen()
    {
      if deleteTarget.Some? {
        removed := Some(deleteTarget.value.id);
      } else {
        removed := None;
      }
    }

    /** `onRemove` settling: once it resolves the dialog closes; when it
        throws (the DELETE was refused) the target stays and the dialog
        stays open. */
    method FinishRemove(ok: bool)
      modifies this`deleteTarget
      ensures ok ==> deleteTarget == None && !DialogOpen()
      ensures !ok ==> deleteTarget == old(deleteTarget) && DialogOpen() == old(DialogOpen())
    {
      if ok {
        deleteTarget := None;
      }
    }

    /** `handleRoleChange` starting, which dims that row's select. */
    method BeginRoleChange(memberId: string)
      modifies this`updatingRole
      ensures updatingRole == Some(memberId)
    {
      updatingRole := Some(memberId);
    }

    /** `handleRoleChange` settling, whether or not `onRoleChange` threw. */
    method EndRoleChange()
      modifies this`updatingRole
      ensures updatingRole == None
    {
      updatingRole := None;
    }
  }
}
