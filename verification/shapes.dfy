/**
 * The two anchored password patterns shared by `db.validateAdminPassword`
 * and `storageService.authenticate`:
 *   DEV    `^Dev([1-8]{2})$`
 *   ADMIN  `^Hamstar([1-9]{2})([1-9])$`
 * Each is a fixed-length check; the matchers return the capture groups.
 */
module PasswordShapes {
  import opened Wrappers

  const DevPrefix: string := "Dev"
  const AdminPrefix: string := "Hamstar"

  predicate InRange(c: char, lo: char, hi: char) {
    lo <= c <= hi
  }

  /** The text `[1-8]{2}` matches. */
  predicate DevDigits(g: string) {
    |g| == 2 && InRange(g[0], '1', '8') && InRange(g[1], '1', '8')
  }

  /** The text `[1-9]{2}` matches: the party code of an ADMIN password. */
  predicate PartyCode(g: string) {
    |g| == 2 && InRange(g[0], '1', '9') && InRange(g[1], '1', '9')
  }

  /** The text `[1-9]` matches: the admin rank of an ADMIN password. */
  predicate AdminRank(g: string) {
    |g| == 1 && InRange(g[0], '1', '9')
  }

  /** The password is `Dev` followed by two digits in 1..8 and nothing else. */
  ghost predicate IsDevShaped(password: string) {
    exists g :: DevDigits(g) && password == DevPrefix + g
  }

  /** The password is `Hamstar`, two digits in 1..9, one digit in 1..9 and nothing else. */
  ghost predicate IsAdminShaped(password: string) {
    exists g, h :: PartyCode(g) && AdminRank(h) && password == AdminPrefix + g + h
  }

  /** `password.match(/^Dev([1-8]{2})$/)`: the capture group, or no match. */
  function MatchDev(password: string): (m: Option<string>)
    ensures m.Some? ==> DevDigits(m.value) && password == DevPrefix + m.value
    ensures m.None? ==> !IsDevShaped(password)
  {
    if |password| == 5 && password[..3] == DevPrefix && DevDigits(password[3..]) then
      assert password == password[..3] + password[3..];
      Some(password[3..])
    else
      None
  }

  datatype AdminCaptures = AdminCaptures(party: string, rank: string)

  /** `password.match(/^Hamstar([1-9]{2})([1-9])$/)`: the two capture groups, or no match. */
  function MatchAdmin(password: string): (m: Option<AdminCaptures>)
    ensures m.Some? ==> PartyCode(m.value.party) && AdminRank(m.value.rank)
    ensures m.Some? ==> password == AdminPrefix + m.value.party + m.value.rank
    ensures m.None? ==> !IsAdminShaped(password)
  {
    if |password| == 10 && password[..7] == AdminPrefix && PartyCode(password[7..9]) && AdminRank(password[9..]) then
      assert password == password[..7] + password[7..9] + password[9..];
      Some(AdminCaptures(password[7..9], password[9..]))
    else
      None
  }

  /** No password has both shapes (they differ in length). */
  lemma ShapesExclusive(password: string)
    ensures !(IsDevShaped(password) && IsAdminShaped(password))
  {
    if IsDevShaped(password) {
      var g :| DevDigits(g) && password == DevPrefix + g;
      assert |password| == 5;
    }
  }

  /** A DEV-shaped password is five characters long; its capture group is characters 3..4. */
  lemma DevShape(password: string)
    requires IsDevShaped(password)
    ensures |password| == 5 && MatchDev(password) == Some(password[3..])
  {
    var g :| DevDigits(g) && password == DevPrefix + g;
    assert password[3..] == g;
  }

  /** An ADMIN-shaped password is ten characters long; its capture groups are characters 7..8 and 9. */
  lemma AdminShape(password: string)
    requires IsAdminShaped(password)
    ensures |password| == 10
    ensures MatchAdmin(password) == Some(AdminCaptures(password[7..9], password[9..]))
  {
    var g, h :| PartyCode(g) && AdminRank(h) && password == AdminPrefix + g + h;
    assert password[7..9] == g && password[9..] == h;
  }
}
