/**
 * The command preconditions NSFW, Admin and Moderator as decisions over the
 * facts the source fetches (the channel's flag, the member's permissions and
 * role ids). Fetching those facts is left out.
 */
module Checks {
  import Text

  /** `Ok(())` or `Err(Reason::User(reason))`. */
  datatype CheckResult = Pass | Fail(reason: string)

  const NsfwReason := "This command can only be used in nsfw-enabled channels"
  const AdminReason := "This command can only be run as an administrator"
  const ModeratorReason := "This command can only be run as a moderator"

  /** The ADMINISTRATOR bit of a Discord permission set. */
  const Administrator: bv64 := 0x8

  /** The one role id the moderator check accepts, as the source spells it. */
  const ModeratorRoleText := "134040353517862912"
  const ModeratorRoleId: nat := 134040353517862912

  function NsfwCheck(channelIsNsfw: bool): (r: CheckResult)
    ensures r == Pass <==> channelIsNsfw
    ensures r != Pass ==> r == Fail(NsfwReason)
  {
    match channelIsNsfw
    case true => Pass
    case false => Fail(NsfwReason)
  }

  /** `perms.administrator()`. */
  predicate IsAdministrator(permissions: bv64)
  {
    permissions & Administrator == Administrator
  }

  function AdminCheck(permissions: bv64): (r: CheckResult)
    ensures r == Pass <==> IsAdministrator(permissions)
    ensures r != Pass ==> r == Fail(AdminReason)
  {
    match IsAdministrator(permissions)
    case true => Pass
    case false => Fail(AdminReason)
  }

  /** `roles.iter().any(|role| role.id.to_string() == "134040353517862912")`. */
  predicate HasModeratorRole(roleIds: seq<nat>)
  {
    exists i :: 0 <= i < |roleIds| && Text.NatToDecimal(roleIds[i]) == ModeratorRoleText
  }

  /** Administrators pass first; everybody else needs the moderator role. */
  function ModCheck(permissions: bv64, roleIds: seq<nat>): (r: CheckResult)
    ensures AdminCheck(permissions) == Pass ==> r == Pass
    ensures r != Pass ==> r == Fail(ModeratorReason)
  {
    if AdminCheck(permissions).Pass? then Pass
    else if HasModeratorRole(roleIds) then Pass
    else Fail(ModeratorReason)
  }

  /** The decimal text of the moderator role id is the one the source compares with. */
  lemma ModeratorRoleTextIsId()
    ensures Text.NatToDecimal(ModeratorRoleId) == ModeratorRoleText
  {
    assert Text.NatToDecimal(1) == "1";
    assert Text.NatToDecimal(13) == "13";
    assert Text.NatToDecimal(134) == "134";
    assert Text.NatToDecimal(1340) == "1340";
    assert Text.NatToDecimal(13404) == "13404";
    assert Text.NatToDecimal(134040) == "134040";
    assert Text.NatToDecimal(1340403) == "1340403";
    assert Text.NatToDecimal(13404035) == "13404035";
    assert Text.NatToDecimal(134040353) == "134040353";
    assert Text.NatToDecimal(1340403535) == "1340403535";
    assert Text.NatToDecimal(13404035351) == "13404035351";
    assert Text.NatToDecimal(134040353517) == "134040353517";
    assert Text.NatToDecimal(1340403535178) == "1340403535178";
    assert Text.NatToDecimal(13404035351786) == "13404035351786";
    assert Text.NatToDecimal(134040353517862) == "134040353517862";
    assert Text.NatToDecimal(1340403535178629) == "1340403535178629";
    assert Text.NatToDecimal(13404035351786291) == "13404035351786291";
  }

  /** A member who is not an administrator passes exactly when holding the moderator role. */
  lemma ModCheckForNonAdmin(permissions: bv64, roleIds: seq<nat>)
    requires !IsAdministrator(permissions)
    ensures ModCheck(permissions, roleIds) == Pass <==> ModeratorRoleId in roleIds
  {
    ModeratorRoleTextIsId();
    if HasModeratorRole(roleIds) {
      var i :| 0 <= i < |roleIds| && Text.NatToDecimal(roleIds[i]) == ModeratorRoleText;
      Text.DecimalInjective(roleIds[i], ModeratorRoleId);
    }
  }

  /** The moderator check never rejects somebody the admin check accepts, and fails only with its own reason. */
  lemma ModCheckWeakerThanAdmin(permissions: bv64, roleIds: seq<nat>)
    ensures ModCheck(permissions, roleIds) == Fail(ModeratorReason) ==> AdminCheck(permissions) == Fail(AdminReason)
  {
  }
}
