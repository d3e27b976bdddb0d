/**
 * The data-access layer (db.ts): the admin-password check, the party-id slug,
 * and the store operations that decide identities or append records. The
 * hosted tables are the fields of `Database`: the party table as a map from
 * party id to party, the other tables as sequences of rows. Clock readings
 * and store-generated ids are parameters.
 */
module Db {
  import opened Wrappers
  import opened Types
  import opened Text
  import opened PasswordShapes

  /** What `validateAdminPassword` returns for a recognised password. */
  datatype AdminCheck = AdminCheck(role: UserRole, partyId: string)

  /** The errors `createParty` and `loginUser` throw. */
  datatype DbError =
    | PartyAlreadyExists    // "A Sector with this identifier already exists."
    | InstantiationFailed   // "Sector instantiation failed at database level."
    | PartyNotFound         // "Target Sector not found. Ensure ID is accurate."

  /**
   * `validateAdminPassword`: a DEV-shaped password gives role DEV in the
   * system scope, an ADMIN-shaped one gives role ADMIN with its two-digit
   * party code; every other password gives nothing.
   */
  function ValidateAdminPassword(password: string): (r: Option<AdminCheck>)
    ensures r == Some(AdminCheck(UserRole.Dev, SystemPartyId)) <==> IsDevShaped(password)
    ensures (r.Some? && r.value.role == Admin) <==> IsAdminShaped(password)
    ensures r.Some? && r.value.role == Admin ==> r.value.partyId == password[7..9] && PartyCode(r.value.partyId)
    ensures r.None? <==> !IsDevShaped(password) && !IsAdminShaped(password)
  {
    ShapesExclusive(password);
    if MatchDev(password).Some? then Some(AdminCheck(UserRole.Dev, SystemPartyId))
    else match MatchAdmin(password)
      case Some(groups) => AdminShape(password); Some(AdminCheck(Admin, groups.party))
      case None => None
  }

  /**
   * The party-id slug `name.toLowerCase().trim().replace(/\s+/g, '-')`: no
   * whitespace and no capital letter is left.
   */
  function CleanPartyId(name: string): (id: string)
    ensures NoSpace(id) && NoUpper(id)
  {
    TrimNoUpper(Lower(name));
    ReplaceSpaceRunsNoUpper(Trim(Lower(name)));
    ReplaceSpaceRuns(Trim(Lower(name)))
  }

  /**
   * The slug is the whitespace-separated words of the lower-cased name joined
   * by single dashes: leading and trailing whitespace vanish and each inner
   * run of whitespace becomes exactly one dash.
   */
  lemma CleanPartyIdIsJoinOfWords(name: string)
    ensures CleanPartyId(name) == Join(Words(Lower(name)), '-')
  {
    TrimReplaceIsJoinOfWords(Lower(name));
  }

  /** Cleaning a clean party id changes nothing. */
  lemma CleanPartyIdIdempotent(name: string)
    ensures CleanPartyId(CleanPartyId(name)) == CleanPartyId(name)
  {
    var id := CleanPartyId(name);
    assert Lower(id) == id;
    assert Trim(id) == id;
    ReplaceSpaceRunsNoSpace(id);
  }

  /** JavaScript truthiness of an optional string: present and not empty. */
  predicate Truthy(s: Option<string>) {
    s.Some? && s.value != ""
  }

  /**
   * The outcome of `loginUser` against the party table `parties`. A DEV-shaped
   * password wins before any lookup; otherwise the cleaned party id must be in
   * the table, and the caller is the party's admin exactly when the password
   * equals the party's admin password.
   */
  function LoginOutcome(parties: map<string, Party>, name: string, partyId: string, password: Option<string>, now: nat)
    : (r: Result<User, DbError>)
    ensures password.Some? && IsDevShaped(password.value) ==>
      r == Ok(User("dev-" + NatToString(now), name, UserRole.Dev, Platinum, SystemPartyId, None))
    ensures !(password.Some? && IsDevShaped(password.value)) ==>
      (r == Err(PartyNotFound) <==> CleanPartyId(partyId) !in parties)
    ensures !(password.Some? && IsDevShaped(password.value)) && CleanPartyId(partyId) in parties ==>
      var party := parties[CleanPartyId(partyId)];
      && r.Ok?
      && r.value.name == name
      && r.value.partyId == party.id
      && r.value.adminId.None?
      && (r.value.role == Admin <==> password.Some? && party.adminPassword == password)
      && (r.value.role == Admin ==> r.value.tier == Platinum && r.value.id == "admin-" + NatToString(now))
      && (r.value.role != Admin ==> r.value.role == Regular && r.value.tier == Silver && r.value.id == "user-" + NatToString(now))
  {
    var devCheck := if Truthy(password) then ValidateAdminPassword(password.value) else None;
    if devCheck.Some? && devCheck.value.role == UserRole.Dev then
      Ok(User("dev-" + NatToString(now), name, UserRole.Dev, Platinum, SystemPartyId, None))
    else
      var cleanPartyId := CleanPartyId(partyId);
      if cleanPartyId !in parties then Err(PartyNotFound)
      else
        var party := parties[cleanPartyId];
        var isSectorAdmin := password.Some? && party.adminPassword == password;
        Ok(User(
          if isSectorAdmin then "admin-" + NatToString(now) else "user-" + NatToString(now),
          name,
          if isSectorAdmin then Admin else Regular,
          if isSectorAdmin then Platinum else Silver,
          party.id,
          None))
  }

  /**
   * The row `createParty` inserts for a fresh party. The insert carries no
   * creation time; `now` stands for the one the store fills in.
   */
  function NewParty(name: string, adminPass: string, now: nat): (p: Party)
    ensures p.id == CleanPartyId(name) && p.name == name && p.adminPassword == Some(adminPass)
  {
    Party(CleanPartyId(name), name, Some(adminPass), now)
  }

  /** The identity `createParty` returns for the founding admin. */
  function FoundingAdmin(name: string, adminName: string, now: nat): (u: User)
    ensures u.role == Admin && u.tier == Platinum && u.partyId == CleanPartyId(name) && u.name == adminName
  {
    User("admin-" + NatToString(now), adminName, Admin, Platinum, CleanPartyId(name), None)
  }

  /** Every ledger row has status DONE. */
  predicate AllDone(logs: seq<EngagementLog>) {
    forall i :: 0 <= i < |logs| ==> logs[i].status == Done
  }

  /** The `Partial<EngagementLog>` a caller hands to `logEngagement`. */
  datatype LogDraft = LogDraft(
    viewerId: string,
    cardId: string,
    postId: string,
    status: Option<LogStatus>,
    pointsEarned: Option<int>)

  /** The `Partial<Notification>` a caller hands to `addNotification`. */
  datatype NotificationDraft = NotificationDraft(
    recipientId: string,
    senderId: string,
    senderName: string,
    kind: NotificationType,
    message: string)

  /** The hosted tables. */
  class Database {
    var parties: map<string, Party>
    var folders: seq<Folder>
    var cards: seq<Card>
    var logs: seq<EngagementLog>
    var notifications: seq<Notification>

    /** Every party is stored under its own id, and every ledger row is DONE. */
    ghost predicate Valid()
      reads this
    {
      && (forall k :: k in parties ==> parties[k].id == k)
      && AllDone(logs)
    }

    constructor (parties: map<string, Party>)
      requires forall k :: k in parties ==> parties[k].id == k
      ensures Valid()
      ensures this.parties == parties && folders == [] && cards == [] && logs == [] && notifications == []
    {
      this.parties := parties;
      folders, cards, logs, notifications := [], [], [], [];
    }

    /**
     * `createParty`: fails when the cleaned id is taken or the insert is
     * rejected (`accepted` is false); otherwise stores the party and returns
     * its founding admin.
     */
    method CreateParty(name: string, adminName: string, adminPass: string, accepted: bool, now: nat)
      returns (r: Result<User, DbError>)
      requires Valid()
      modifies this
      ensures Valid()
      ensures CleanPartyId(name) in old(parties) ==> r == Err(PartyAlreadyExists) && parties == old(parties)
      ensures CleanPartyId(name) !in old(parties) && !accepted ==> r == Err(InstantiationFailed) && parties == old(parties)
      ensures CleanPartyId(name) !in old(parties) && accepted ==>
        && r == Ok(FoundingAdmin(name, adminName, now))
        && parties == old(parties)[CleanPartyId(name) := NewParty(name, adminPass, now)]
      ensures folders == old(folders) && cards == old(cards) && logs == old(logs) && notifications == old(notifications)
    {
      var partyId := CleanPartyId(name);
      if partyId in parties {
        r := Err(PartyAlreadyExists);
      } else if !accepted {
        r := Err(InstantiationFailed);
      } else {
        var party := NewParty(name, adminPass, now);
        assert party.id == partyId;
        parties := parties[partyId := party];
        r := Ok(FoundingAdmin(name, adminName, now));
      }
    }

    /** `loginUser`: reads the party table and decides the identity. */
    method LoginUser(name: string, partyId: string, password: Option<string>, now: nat)
      returns (r: Result<User, DbError>)
      ensures r == LoginOutcome(parties, name, partyId, password, now)
    {
      var devCheck := None;
      if Truthy(password) {
        devCheck := ValidateAdminPassword(password.value);
      }
      if devCheck.Some? && devCheck.value.role == UserRole.Dev {
        return Ok(User("dev-" + NatToString(now), name, UserRole.Dev, Platinum, SystemPartyId, None));
      }
      var cleanPartyId := CleanPartyId(partyId);
      if cleanPartyId !in parties {
        return Err(PartyNotFound);
      }
      var party := parties[cleanPartyId];
      var isSectorAdmin := password.Some? && party.adminPassword == password;
      if isSectorAdmin {
        r := Ok(User("admin-" + NatToString(now), name, Admin, Platinum, party.id, None));
      } else {
        r := Ok(User("user-" + NatToString(now), name, Regular, Silver, party.id, None));
      }
    }

    /** `createFolder`: inserts the folder row. */
    method CreateFolder(folder: Folder)
      requires Valid()
      modifies this
      ensures Valid()
      ensures folders == old(folders) + [folder]
      ensures parties == old(parties) && cards == old(cards) && logs == old(logs) && notifications == old(notifications)
    {
      folders := folders + [folder];
    }

    /** `upsertCard`: replaces the rows with the card's id, or appends the card when there is none. */
    method UpsertCard(card: Card)
      requires Valid()
      modifies this
      ensures Valid()
      ensures card in cards
      ensures (exists i :: 0 <= i < |old(cards)| && old(cards)[i].id == card.id) ==>
        |cards| == |old(cards)| &&
        forall i :: 0 <= i < |cards| ==> cards[i] == if old(cards)[i].id == card.id then card else old(cards)[i]
      ensures (forall i :: 0 <= i < |old(cards)| ==> old(cards)[i].id != card.id) ==> cards == old(cards) + [card]
      ensures parties == old(parties) && folders == old(folders) && logs == old(logs) && notifications == old(notifications)
    {
      var i := 0;
      var found := false;
      var updated: seq<Card> := [];
      while i < |cards|
        invariant 0 <= i <= |cards|
        invariant |updated| == i
        invariant found <==> exists j :: 0 <= j < i && cards[j].id == card.id
        invariant forall j :: 0 <= j < i ==> updated[j] == if cards[j].id == card.id then card else cards[j]
      {
        if cards[i].id == card.id {
          updated := updated + [card];
          found := true;
        } else {
          updated := updated + [cards[i]];
        }
        i := i + 1;
      }
      if found {
        ghost var j :| 0 <= j < |cards| && cards[j].id == card.id;
        assert updated[j] == card;
        cards := updated;
      } else {
        cards := cards + [card];
      }
    }

    /**
     * `logEngagement`: inserts the draft with the store's id, the clock
     * reading, and status DONE whatever status the draft carried.
     */
    method LogEngagement(draft: LogDraft, id: string, now: nat)
      requires Valid()
      modifies this
      ensures Valid()
      ensures logs == old(logs) + [EngagementLog(id, draft.viewerId, draft.cardId, draft.postId, Done, draft.pointsEarned, now)]
      ensures AllDone(old(logs)) ==> AllDone(logs)
      ensures parties == old(parties) && folders == old(folders) && cards == old(cards) && notifications == old(notifications)
    {
      logs := logs + [EngagementLog(id, draft.viewerId, draft.cardId, draft.postId, Done, draft.pointsEarned, now)];
    }

    /** `addNotification`: inserts the draft with the store's id, the clock reading, and `read` false. */
    method AddNotification(draft: NotificationDraft, id: string, now: nat)
      requires Valid()
      modifies this
      ensures Valid()
      ensures notifications == old(notifications) +
        [Notification(id, draft.recipientId, draft.senderId, draft.senderName, draft.kind, draft.message, now, false)]
      ensures parties == old(parties) && folders == old(folders) && cards == old(cards) && logs == old(logs)
    {
      notifications := notifications +
        [Notification(id, draft.recipientId, draft.senderId, draft.senderName, draft.kind, draft.message, now, false)];
    }
  }

  /**
   * Whoever founded a party can log in to it with the founding password,
   * naming the party either by its display name or by its id, and is its
   * admin unless that password is DEV-shaped (then DEV wins).
   */
  lemma FounderCanLogIn(parties: map<string, Party>, name: string, pass: string, created: nat,
                        loginName: string, useId: bool, now: nat)
    requires CleanPartyId(name) !in parties
    requires !IsDevShaped(pass)
    ensures var after := parties[CleanPartyId(name) := NewParty(name, pass, created)];
      var r := LoginOutcome(after, loginName, if useId then CleanPartyId(name) else name, Some(pass), now);
      r.Ok? && r.value.role == Admin && r.value.tier == Platinum && r.value.partyId == CleanPartyId(name)
  {
    CleanPartyIdIdempotent(name);
  }

  /** On the join path an ADMIN-shaped password that is not the party's admin password gives an ordinary member. */
  lemma LegacyAdminShapeGrantsNothing(parties: map<string, Party>, name: string, partyId: string, password: string, now: nat)
    requires IsAdminShaped(password)
    requires CleanPartyId(partyId) in parties && parties[CleanPartyId(partyId)].adminPassword != Some(password)
    ensures LoginOutcome(parties, name, partyId, Some(password), now).Ok?
    ensures LoginOutcome(parties, name, partyId, Some(password), now).value.role == Regular
    ensures LoginOutcome(parties, name, partyId, Some(password), now).value.tier == Silver
  {
    ShapesExclusive(password);
  }
}
