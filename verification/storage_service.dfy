/**
 * The legacy credential parser of services/storageService.ts: a password and
 * a display name give a full identity, or nothing. The REGULAR id embeds a
 * clock reading, passed in as `now`.
 */
module StorageService {
  import opened Wrappers
  import opened Types
  import opened Text
  import opened PasswordShapes
  import Db

  /** The party every generic credential lands in. */
  const DefaultPartyId: string := "01"

  /**
   * `storageService.authenticate`. The DEV shape is tried first, then the
   * ADMIN shape; any other password of length at least 4 gives a REGULAR
   * member of party "01"; shorter ones give nothing.
   */
  function Authenticate(password: string, name: string, now: nat): (r: Option<User>)
    ensures IsDevShaped(password) ==>
      r == Some(User("dev-" + password[3..], name + " (System Architect)", UserRole.Dev, Platinum, SystemPartyId, None))
    ensures IsAdminShaped(password) ==>
      r == Some(User("admin-" + password[7..9] + "-" + password[9..], name + " (Admin)", Admin, Platinum,
                     password[7..9], Some(password[9..])))
    ensures !IsDevShaped(password) && !IsAdminShaped(password) && |password| >= 4 ==>
      r == Some(User("user-" + NatToString(now), if name == "" then "Operative" else name, Regular, Silver,
                     DefaultPartyId, None))
    ensures r.None? <==> |password| < 4
  {
    ShapesExclusive(password);
    match MatchDev(password)
    case Some(digits) =>
      Some(User("dev-" + digits, name + " (System Architect)", UserRole.Dev, Platinum, SystemPartyId, None))
    case None =>
      match MatchAdmin(password)
      case Some(groups) =>
        AdminShape(password);
        Some(User("admin-" + groups.party + "-" + groups.rank, name + " (Admin)", Admin, Platinum,
                  groups.party, Some(groups.rank)))
      case None =>
        if |password| >= 4 then
          Some(User("user-" + NatToString(now), if name == "" then "Operative" else name, Regular, Silver,
                    DefaultPartyId, None))
        else None
  }

  /**
   * The shape checks come before the length rule: "Dev11" (length 5) gives a
   * DEV identity, never a REGULAR one.
   */
  lemma ShapeBeatsLength(now: nat)
    ensures Authenticate("Dev11", "Ada", now).Some?
    ensures Authenticate("Dev11", "Ada", now).value.role == UserRole.Dev
    ensures Authenticate("Dev11", "Ada", now).value.id == "dev-11"
  {
    assert DevDigits("11") && "Dev11" == DevPrefix + "11";
  }

  /**
   * Both credential parsers read a shaped password alike: the same role and
   * party scope as `validateAdminPassword` reports.
   */
  lemma AgreesWithValidateAdminPassword(password: string, name: string, now: nat)
    requires Db.ValidateAdminPassword(password).Some?
    ensures Authenticate(password, name, now).Some?
    ensures Authenticate(password, name, now).value.role == Db.ValidateAdminPassword(password).value.role
    ensures Authenticate(password, name, now).value.partyId == Db.ValidateAdminPassword(password).value.partyId
  {
    ShapesExclusive(password);
    if IsDevShaped(password) {
      DevShape(password);
    } else {
      AdminShape(password);
    }
  }
}
