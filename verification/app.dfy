/**
 * The session record of App.tsx and its transitions. React keeps the whole
 * record as one immutable value that `setState` replaces, so the record is
 * a datatype and the session a class holding the current record. The
 * database calls go to a `Db.Database`; the rows `getPartyData` returns are
 * a parameter of `SyncData`.
 */
module App {
  import opened Wrappers
  import opened Types
  import Db

  /** The session record: `AppState` plus `logs` and `activeFolderId`. */
  datatype AppState = AppState(
    currentUser: Option<User>,
    activeParty: Option<Party>,
    folders: seq<Folder>,
    cards: seq<Card>,
    notifications: seq<Notification>,
    instructions: seq<InstructionBox>,
    logs: seq<EngagementLog>,
    activeFolderId: Option<string>,
    isLoading: bool)

  /** What `getPartyData` returns. */
  datatype PartyData = PartyData(
    folders: seq<Folder>,
    cards: seq<Card>,
    notifications: seq<Notification>,
    logs: seq<EngagementLog>)

  /** The arguments `syncData` passes to `getPartyData`. */
  datatype PartyQuery = PartyQuery(partyId: string, role: UserRole, folderFilter: Option<string>)

  /** The record the app starts with. */
  const InitialState: AppState := AppState(None, None, [], [], [], [], [], None, true)

  /** The record `logout` installs. */
  const LoggedOutState: AppState := AppState(None, None, [], [], [], [], [], None, false)

  /**
   * `prev.activeFolderId || (data.folders[0]?.id || null)`: an empty string
   * counts as no selection on both sides.
   */
  function MergeActiveFolder(prev: Option<string>, fetched: seq<Folder>): (r: Option<string>)
    ensures Db.Truthy(prev) ==> r == prev
    ensures r.Some? ==> r.value != ""
    ensures r.Some? && r != prev ==> |fetched| > 0 && r.value == fetched[0].id
    ensures r.None? <==> !Db.Truthy(prev) && (|fetched| == 0 || fetched[0].id == "")
  {
    if Db.Truthy(prev) then prev
    else if |fetched| > 0 && fetched[0].id != "" then Some(fetched[0].id)
    else None
  }

  /** The query `syncData` issues for a signed-in user: the folder filter is dropped when nothing is selected. */
  function QueryFor(s: AppState): (q: Option<PartyQuery>)
    ensures q.Some? <==> s.currentUser.Some?
    ensures q.Some? ==> q.value.partyId == s.currentUser.value.partyId && q.value.role == s.currentUser.value.role
    ensures q.Some? ==> (q.value.folderFilter.Some? <==> Db.Truthy(s.activeFolderId))
    ensures q.Some? && Db.Truthy(s.activeFolderId) ==> q.value.folderFilter == s.activeFolderId
  {
    match s.currentUser
    case None => None
    case Some(u) => Some(PartyQuery(u.partyId, u.role, if Db.Truthy(s.activeFolderId) then s.activeFolderId else None))
  }

  /** The record after `syncData` received `data`. */
  function Synced(prev: AppState, data: PartyData): (next: AppState)
    ensures prev.currentUser.None? ==> next == prev
    ensures prev.currentUser.Some? ==>
      && next.currentUser == prev.currentUser
      && next.activeParty == prev.activeParty
      && next.instructions == prev.instructions
      && next.folders == data.folders && next.cards == data.cards
      && next.notifications == data.notifications && next.logs == data.logs
      && !next.isLoading
  {
    if prev.currentUser.None? then prev
    else prev.(folders := data.folders, cards := data.cards, notifications := data.notifications, logs := data.logs,
               activeFolderId := MergeActiveFolder(prev.activeFolderId, data.folders), isLoading := false)
  }

  /** A folder selection survives every later merge, and merging twice with the same rows changes nothing. */
  lemma MergeStable(prev: Option<string>, fetched: seq<Folder>, later: seq<Folder>)
    ensures MergeActiveFolder(prev, fetched).Some? ==>
      MergeActiveFolder(MergeActiveFolder(prev, fetched), later) == MergeActiveFolder(prev, fetched)
    ensures MergeActiveFolder(MergeActiveFolder(prev, fetched), fetched) == MergeActiveFolder(prev, fetched)
  {
  }

  /** Receiving the same rows twice is the same as receiving them once. */
  lemma SyncedIdempotent(s: AppState, data: PartyData)
    ensures Synced(Synced(s, data), data) == Synced(s, data)
  {
    MergeStable(s.activeFolderId, data.folders, data.folders);
  }

  /** After a logout no sync changes anything, until somebody logs in again. */
  lemma SyncAfterLogout(data: PartyData)
    ensures Synced(LoggedOutState, data) == LoggedOutState
    ensures QueryFor(LoggedOutState).None?
  {
  }

  /** The browser session. */
  class Session {
    var state: AppState

    constructor ()
      ensures state == InitialState
    {
      state := InitialState;
    }

    /**
     * `syncData`: nothing without a signed-in user; otherwise the query it
     * issues, and the record merged with the rows that came back.
     */
    method SyncData(data: PartyData) returns (query: Option<PartyQuery>)
      modifies this
      ensures query == QueryFor(old(state))
      ensures state == Synced(old(state), data)
      ensures old(state).currentUser.Some? ==> state.activeFolderId == MergeActiveFolder(old(state).activeFolderId, data.folders)
    {
      query := QueryFor(state);
      if state.currentUser.None? {
        return;
      }
      state := Synced(state, data);
    }

    /** `login`: signs in the user `loginUser` returns; on an error the record is unchanged. */
    method Login(store: Db.Database, name: string, party: string, pass: Option<string>, now: nat)
      returns (r: Result<User, Db.DbError>)
      modifies this
      ensures r == Db.LoginOutcome(store.parties, name, party, pass, now)
      ensures r.Ok? ==> state == old(state).(currentUser := Some(r.value))
      ensures r.Err? ==> state == old(state)
    {
      r := store.LoginUser(name, party, pass, now);
      if r.Ok? {
        state := state.(currentUser := Some(r.value));
      }
    }

    /** `establish`: creates the party and signs in its founding admin; on an error the record is unchanged. */
    method Establish(store: Db.Database, pName: string, aName: string, pass: string, accepted: bool, now: nat)
      returns (r: Result<User, Db.DbError>)
      requires store.Valid()
      modifies this, store
      ensures store.Valid()
      ensures Db.CleanPartyId(pName) in old(store.parties) ==> r == Err(Db.PartyAlreadyExists)
      ensures Db.CleanPartyId(pName) !in old(store.parties) && !accepted ==> r == Err(Db.InstantiationFailed)
      ensures Db.CleanPartyId(pName) !in old(store.parties) && accepted ==>
        && r == Ok(Db.FoundingAdmin(pName, aName, now))
        && store.parties == old(store.parties)[Db.CleanPartyId(pName) := Db.NewParty(pName, pass, now)]
      ensures r.Err? ==> store.parties == old(store.parties)
      ensures store.folders == old(store.folders) && store.cards == old(store.cards)
      ensures store.logs == old(store.logs) && store.notifications == old(store.notifications)
      ensures r.Ok? ==> state == old(state).(currentUser := Some(r.value))
      ensures r.Err? ==> state == old(state)
    {
      r := store.CreateParty(pName, aName, pass, accepted, now);
      if r.Ok? {
        state := state.(currentUser := Some(r.value));
      }
    }

    /** `logout`: back to the empty, signed-out record. */
    method Logout()
      modifies this
      ensures state == LoggedOutState
    {
      state := LoggedOutState;
    }

    /** `setActiveFolderId`: a folder tab was chosen. */
    method SelectFolder(id: Option<string>)
      modifies this
      ensures state == old(state).(activeFolderId := id)
    {
      state := state.(activeFolderId := id);
    }
  }
}
