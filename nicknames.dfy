/**
  Nicknames of the form `name | id`: the `/setar` form, which sets the
  member's own nickname and refuses one that is too long, and the approval of
  a set request, which sets the requester's nickname cut to the limit. Both
  check the bot's permission, the server owner and the role hierarchy, in that
  order, before calling Discord.
*/
module Nicknames {
  import opened Wrappers
  import opened Text

  /** Discord's limit on a nickname, in UTF-16 code units. */
  const MaxNickname := 32

  /**
    `.replace(/\|/g, "").trim()`: the typed value without bars or surrounding
    white space; every other character of it is kept, as often as it occurs.
  */
  function Sanitize(s: string): (r: string)
    ensures '|' !in r && Trimmed(r)
    ensures forall x :: x != '|' && !IsSpace(x) ==> multiset(r)[x] == multiset(s)[x]
  {
    TrimKeeps(Remove(s, '|'), '|');
    TrimKeepsText(Remove(s, '|'));
    Trim(Remove(s, '|'))
  }

  /** Sanitizing twice is sanitizing once. */
  lemma SanitizeIdempotent(s: string)
    ensures Sanitize(Sanitize(s)) == Sanitize(s)
  {
    TrimTrimmed(Sanitize(s));
  }

  /** `${name} | ${id}`. */
  function Nickname(name: string, id: string): string {
    name + " | " + id
  }

  /**
    A nickname made of sanitized parts reads back: split at the bar and
    trimmed, it gives the name and the id.
  */
  lemma NicknameRoundTrip(name: string, id: string)
    requires '|' !in name && '|' !in id && Trimmed(name) && Trimmed(id)
    ensures var parts := Split(Nickname(name, id), '|');
      |parts| == 2 && Trim(parts[0]) == name && Trim(parts[1]) == id
  {
    var left, right := name + " ", " " + id;
    assert Join([left, right], "|") == Nickname(name, id);
    assert '|' !in left && '|' !in right;
    SplitJoin([left, right], '|');
    TrimPadded(name);
    TrimPadded(id);
  }

  /** Why a nickname change is refused before the call is made. */
  datatype Refusal = NoManageNicknames | TargetIsOwner | BelowInHierarchy

  /**
    The checks before `setNickname`, in order: the bot needs Manage Nicknames,
    the target must not own the server, and the bot's highest role must be
    above the target's (a missing one counts as position 0).
  */
  function Gate(botCanManage: bool, targetIsOwner: bool, botHighest: Option<int>, targetHighest: Option<int>)
    : (r: Option<Refusal>)
    ensures r == Some(NoManageNicknames) <==> !botCanManage
    ensures r == Some(TargetIsOwner) <==> botCanManage && targetIsOwner
    ensures r == Some(BelowInHierarchy) <==>
      botCanManage && !targetIsOwner && botHighest.GetOr(0) <= targetHighest.GetOr(0)
    ensures r.None? <==> botCanManage && !targetIsOwner && botHighest.GetOr(0) > targetHighest.GetOr(0)
  {
    if !botCanManage then Some(NoManageNicknames)
    else if targetIsOwner then Some(TargetIsOwner)
    else if botHighest.GetOr(0) <= targetHighest.GetOr(0) then Some(BelowInHierarchy)
    else None
  }

  /**
    What the server and the member look like when a nickname is to be set:
    whether the command runs in a server, whether fetching the member fails,
    the gate's inputs, and whether the `setNickname` call fails.
  */
  datatype Target = Target(inGuild: bool, fetchFails: bool, botCanManage: bool, isOwner: bool,
                           botHighest: Option<int>, targetHighest: Option<int>, setFails: bool)

  /** The reply to the `/setar` form. */
  datatype SetarReply =
    | TooLong
    | NotInGuild
    | Refused(why: Refusal)
    | CallFailed
    | Changed(nickname: string)

  /**
    The `/setar` form: the length is checked first, then the server; the member
    is fetched before the gate, and a failed fetch or a failed call ends in the
    generic error reply; only when all pass is the nickname set.
  */
  function Setar(nameInput: string, idInput: string, t: Target): SetarReply {
    var nickname := Nickname(Sanitize(nameInput), Sanitize(idInput));
    if Utf16Length(nickname) > MaxNickname then TooLong
    else if !t.inGuild then NotInGuild
    else if t.fetchFails then CallFailed
    else
      match Gate(t.botCanManage, t.isOwner, t.botHighest, t.targetHighest)
      case Some(why) => Refused(why)
      case None => if t.setFails then CallFailed else Changed(nickname)
  }

  /**
    The nickname `/setar` sets is the sanitized `name | id` and fits the limit;
    it is set exactly when it fits, the command runs in a server, the member
    can be fetched, the gate passes and the call succeeds; a refusal by the gate
    is only reported once the member has been fetched.
  */
  lemma SetarSpec(nameInput: string, idInput: string, t: Target)
    ensures var r := Setar(nameInput, idInput, t);
      var nickname := Nickname(Sanitize(nameInput), Sanitize(idInput));
      && (r.Changed? <==>
            (Utf16Length(nickname) <= MaxNickname && t.inGuild && !t.fetchFails
             && Gate(t.botCanManage, t.isOwner, t.botHighest, t.targetHighest).None? && !t.setFails))
      && (r.Changed? ==> r.nickname == nickname && Utf16Length(r.nickname) <= MaxNickname)
      && (r == TooLong <==> Utf16Length(nickname) > MaxNickname)
      && (r.Refused? ==> t.inGuild && !t.fetchFails
                         && Gate(t.botCanManage, t.isOwner, t.botHighest, t.targetHighest) == Some(r.why))
  {
  }

  /**
    The nickname the approval of a set request asks for, if any: the requested
    name and id (both non-empty) as `name | id`, cut to the limit.
  */
  function ApprovedNickname(requestedName: string, requestedId: string): Option<string> {
    if requestedName == "" || requestedId == "" then None
    else Some(Truncate16(Nickname(requestedName, requestedId), MaxNickname))
  }

  /**
    The two paths agree where they can: `/setar` refuses exactly the nicknames
    the approval path would have to cut, and for any other the approval path
    asks for the very nickname `/setar` would set.
  */
  lemma TooLongIffCut(name: string, id: string)
    requires name != "" && id != ""
    ensures Utf16Length(Nickname(name, id)) > MaxNickname
      <==> ApprovedNickname(name, id).value != Nickname(name, id)
    ensures Utf16Length(Nickname(name, id)) <= MaxNickname ==> ApprovedNickname(name, id) == Some(Nickname(name, id))
  {
  }

  /** The outcome of the authorize button of a set request. */
  datatype ApprovalReply =
    | ApproverLacksManageRoles
    | ApprovalNotInGuild
    | ApprovalFailed
    | BotLacksManageRoles
    | Authorized(nicknameSet: Option<string>)

  /**
    The authorize button: the approver needs Manage Roles, the button must be
    pressed in a server, the requester must be fetched, and the bot needs
    Manage Roles; only then are the roles changed and the nickname attempted,
    which sets the requested nickname when the gate passes and the call
    succeeds, and otherwise is only logged.
  */
  function Approve(requestedName: string, requestedId: string, approverCanManageRoles: bool,
                   botCanManageRoles: bool, t: Target): (r: ApprovalReply)
    ensures r == ApproverLacksManageRoles <==> !approverCanManageRoles
    ensures r == ApprovalNotInGuild <==> approverCanManageRoles && !t.inGuild
    ensures r == ApprovalFailed <==> approverCanManageRoles && t.inGuild && t.fetchFails
    ensures r == BotLacksManageRoles <==>
      approverCanManageRoles && t.inGuild && !t.fetchFails && !botCanManageRoles
    ensures r.Authorized? <==> approverCanManageRoles && t.inGuild && !t.fetchFails && botCanManageRoles
    ensures r.Authorized? ==>
      (r.nicknameSet.Some? <==>
         requestedName != "" && requestedId != ""
         && Gate(t.botCanManage, t.isOwner, t.botHighest, t.targetHighest).None? && !t.setFails)
    ensures r.Authorized? && r.nicknameSet.Some? ==>
      r.nicknameSet.value == Truncate16(Nickname(requestedName, requestedId), MaxNickname)
      && r.nicknameSet == ApprovedNickname(requestedName, requestedId)
  {
    if !approverCanManageRoles then ApproverLacksManageRoles
    else if !t.inGuild then ApprovalNotInGuild
    else if t.fetchFails then ApprovalFailed
    else if !botCanManageRoles then BotLacksManageRoles
    else
      match ApprovedNickname(requestedName, requestedId)
      case None => Authorized(None)
      case Some(n) =>
        if Gate(t.botCanManage, t.isOwner, t.botHighest, t.targetHighest).None? && !t.setFails
        then Authorized(Some(n)) else Authorized(None)
  }

  /**
    Approval sets a nickname only when both the approver and the bot hold
    Manage Roles, and whenever it sets one, `/setar` with the same form values
    on the same member would have set the same nickname, or refused it as too
    long when approval had to cut it.
  */
  lemma ApprovalImpliesSetar(name: string, id: string, approverCanManageRoles: bool,
                             botCanManageRoles: bool, t: Target)
    ensures var a := Approve(Sanitize(name), Sanitize(id), approverCanManageRoles, botCanManageRoles, t);
      var s := Setar(name, id, t);
      a.Authorized? && a.nicknameSet.Some? ==>
        approverCanManageRoles && botCanManageRoles
        && ((s.Changed? && s.nickname == a.nicknameSet.value) || s == TooLong)
  {
    if Sanitize(name) != "" && Sanitize(id) != "" {
      TooLongIffCut(Sanitize(name), Sanitize(id));
    }
  }

  /**
    Both paths apply the same gate: when the approver and the bot hold Manage
    Roles, the form values are non-empty and their nickname fits, approving the
    request sets a nickname exactly when `/setar` would set it, and the same one.
  */
  lemma PathsAgree(name: string, id: string, approverCanManageRoles: bool, botCanManageRoles: bool, t: Target)
    requires approverCanManageRoles && botCanManageRoles
    requires Sanitize(name) != "" && Sanitize(id) != ""
    requires Utf16Length(Nickname(Sanitize(name), Sanitize(id))) <= MaxNickname
    ensures var s := Setar(name, id, t);
      var a := Approve(Sanitize(name), Sanitize(id), approverCanManageRoles, botCanManageRoles, t);
      (s.Changed? <==> a.Authorized? && a.nicknameSet.Some?)
      && (s.Changed? ==> a.nicknameSet.value == s.nickname)
  {
    TooLongIffCut(Sanitize(name), Sanitize(id));
  }
}
