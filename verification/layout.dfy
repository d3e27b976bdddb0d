/**
 * The feed of components/Layout.tsx: the split of the party's cards into
 * the viewer's own card and the others, the post list of a newly deployed
 * card, the reciprocity badge, the notification filter, and the handlers
 * that write to the store.
 */
module Layout {
  import opened Wrappers
  import opened Types
  import opened Text
  import opened Seqs
  import Db
  import App
  import UserCard

  /** `currentUser?.id`: the viewer's id, absent when nobody is signed in. */
  function ViewerOf(user: Option<User>): Option<string> {
    match user
    case None => None
    case Some(u) => Some(u.id)
  }

  /** `c.userId === currentUser?.id`: never true without a viewer. */
  function Mine(viewer: Option<string>): Card -> bool {
    (c: Card) => Some(c.userId) == viewer
  }

  /** `c.userId !== currentUser?.id`. */
  function NotMine(viewer: Option<string>): Card -> bool {
    (c: Card) => Some(c.userId) != viewer
  }

  /** `myCard`: the first card the viewer owns. */
  function MyCard(cards: seq<Card>, viewer: Option<string>): (r: Option<Card>)
    ensures viewer.None? ==> r.None?
    ensures r.Some? ==> viewer.Some? && r.value.userId == viewer.value
    ensures r.Some? ==> exists i :: 0 <= i < |cards| && cards[i] == r.value && forall j :: 0 <= j < i ==> cards[j].userId != viewer.value
    ensures r.None? && viewer.Some? ==> forall i :: 0 <= i < |cards| ==> cards[i].userId != viewer.value
  {
    match FindIndex(cards, Mine(viewer))
    case None => None
    case Some(i) => Some(cards[i])
  }

  /** `otherCards`: every card the viewer does not own, in feed order. */
  function OtherCards(cards: seq<Card>, viewer: Option<string>): (r: seq<Card>)
    ensures forall i :: 0 <= i < |r| ==> r[i] in cards && Some(r[i].userId) != viewer
    ensures forall i :: 0 <= i < |cards| && Some(cards[i].userId) != viewer ==> cards[i] in r
  {
    Filter(cards, NotMine(viewer))
  }

  /** The feed keeps the fetched order: a card list made of two batches shows each batch's feed part in turn. */
  lemma OtherCardsKeepOrder(older: seq<Card>, newer: seq<Card>, viewer: Option<string>)
    ensures OtherCards(older + newer, viewer) == OtherCards(older, viewer) + OtherCards(newer, viewer)
  {
    FilterConcat(older, newer, NotMine(viewer));
  }

  /**
   * The split is a partition: a card is either the viewer's or in the feed,
   * the feed lacks a card exactly when the viewer owns one, and without a
   * viewer the feed is every card.
   */
  lemma {:induction false} CardSplit(cards: seq<Card>, viewer: Option<string>)
    ensures |Filter(cards, Mine(viewer))| + |OtherCards(cards, viewer)| == |cards|
    ensures MyCard(cards, viewer).Some? <==> |OtherCards(cards, viewer)| < |cards|
    ensures viewer.None? ==> OtherCards(cards, viewer) == cards
  {
    FilterComplement(cards, Mine(viewer), NotMine(viewer));
    FilterEmpty(cards, Mine(viewer));
    if viewer.None? {
      FilterAllKeeps(cards, NotMine(viewer));
    }
  }

  /** No card of the feed counts as the viewer's own: each one offers the verification gate. */
  lemma FeedCardsAreOthers(cards: seq<Card>, user: User, logs: seq<EngagementLog>, profileOpened: bool)
    ensures forall i :: 0 <= i < |OtherCards(cards, ViewerOf(Some(user)))| ==>
      UserCard.CardFooter(OtherCards(cards, ViewerOf(Some(user)))[i], user.id, logs, profileOpened) != UserCard.PayloadActive
  {
  }

  /** `u.trim() !== ''`. */
  predicate NonBlank(url: string) {
    Trim(url) != ""
  }

  /** The id of the `i`-th deployed post: `post-${Date.now()}-${i}`. */
  function PostId(now: nat, i: nat): string {
    "post-" + NatToString(now) + "-" + NatToString(i)
  }

  /** The post list of `handleDeploy`: the non-blank URL inputs, numbered from 1. */
  function DeployPosts(urls: seq<string>, now: nat): (posts: seq<Post>)
    ensures |posts| == |Filter(urls, NonBlank)| <= |urls|
    ensures forall i :: 0 <= i < |posts| ==> posts[i].sn == i + 1 && posts[i].id == PostId(now, i)
    ensures forall i :: 0 <= i < |posts| ==> posts[i].url == Filter(urls, NonBlank)[i] && NonBlank(posts[i].url)
  {
    var kept := Filter(urls, NonBlank);
    seq(|kept|, i requires 0 <= i < |kept| => Post(PostId(now, i), kept[i], i + 1))
  }

  predicate Blank(url: string) {
    !NonBlank(url)
  }

  /** Exactly the blank inputs are dropped: every other input becomes a post. */
  lemma DeployDropsOnlyBlanks(urls: seq<string>, now: nat)
    ensures |DeployPosts(urls, now)| + |Filter(urls, Blank)| == |urls|
  {
    FilterComplement(urls, NonBlank, Blank);
  }

  /** Two posts of one deployment never share an id. */
  lemma PostIdsDistinct(now: nat, i: nat, j: nat)
    requires i != j
    ensures PostId(now, i) != PostId(now, j)
  {
    var prefix := "post-" + NatToString(now) + "-";
    if PostId(now, i) == PostId(now, j) {
      assert PostId(now, i)[|prefix|..] == NatToString(i);
      assert PostId(now, j)[|prefix|..] == NatToString(j);
      NatToStringInjective(i, j);
    }
  }

  /** The card `handleDeploy` upserts; the row carries no id, so `cardId` is the fresh one the store assigns. */
  function DeployedCard(user: User, folderId: string, urls: seq<string>, cardId: string, now: nat): Card {
    Card(cardId, user.id, user.partyId, folderId, user.name, now, user.tier, DeployPosts(urls, now), 0)
  }

  /** `l.viewerId === card.userId && l.cardId === myCard?.id`. */
  function EngagedMyCard(owner: string, myCard: Option<Card>): EngagementLog -> bool {
    (l: EngagementLog) => l.viewerId == owner && (myCard.Some? && l.cardId == myCard.value.id)
  }

  /**
   * `isReciprocated` (and `theyEngagedMe`, the same expression): the owner of
   * `card` has a log on the viewer's own card.
   */
  function IsReciprocated(card: Card, myCard: Option<Card>, logs: seq<EngagementLog>): (b: bool)
    ensures b <==> myCard.Some? && exists i :: 0 <= i < |logs| && logs[i].viewerId == card.userId && logs[i].cardId == myCard.value.id
  {
    Any(logs, EngagedMyCard(card.userId, myCard))
  }

  /**
   * While every log is DONE, a card shows the reciprocity badge exactly when
   * its owner, looking at the viewer's card, is past the gate there.
   */
  lemma ReciprocatedIsOwnerDone(card: Card, mine: Card, logs: seq<EngagementLog>)
    requires Db.AllDone(logs)
    ensures IsReciprocated(card, Some(mine), logs) <==> UserCard.IsDone(mine, card.userId, logs)
  {
    UserCard.IsDoneExact(mine, card.userId, logs);
  }

  /**
   * The store holds only DONE rows, so no card it feeds ever offers
   * "Connect Now", and the reciprocity badge is the owner's completion.
   */
  lemma StoreNeverOffersConnectNow(store: Db.Database, card: Card, mine: Card, viewerId: string, profileOpened: bool)
    requires store.Valid()
    ensures UserCard.CardFooter(card, viewerId, store.logs, profileOpened) != UserCard.ConnectNow
    ensures IsReciprocated(card, Some(mine), store.logs) <==> UserCard.IsDone(mine, card.userId, store.logs)
  {
    UserCard.ConnectNowUnreachable(card, viewerId, store.logs, profileOpened);
    ReciprocatedIsOwnerDone(card, mine, store.logs);
  }

  /** `n.recipientId === currentUser?.id || n.recipientId === 'all'`. */
  function ForViewer(viewer: Option<string>): Notification -> bool {
    (n: Notification) => Some(n.recipientId) == viewer || n.recipientId == "all"
  }

  /** The notifications handed to the panel. */
  function VisibleNotifications(notifications: seq<Notification>, viewer: Option<string>): (r: seq<Notification>)
    ensures forall i :: 0 <= i < |r| ==> r[i] in notifications && (Some(r[i].recipientId) == viewer || r[i].recipientId == "all")
    ensures forall i :: 0 <= i < |notifications| && (Some(notifications[i].recipientId) == viewer || notifications[i].recipientId == "all") ==>
      notifications[i] in r
  {
    Filter(notifications, ForViewer(viewer))
  }

  /** The panel keeps the fetched order: a notification list made of two batches shows each batch's visible part in turn. */
  lemma VisibleKeepsOrder(older: seq<Notification>, newer: seq<Notification>, viewer: Option<string>)
    ensures VisibleNotifications(older + newer, viewer) == VisibleNotifications(older, viewer) + VisibleNotifications(newer, viewer)
  {
    FilterConcat(older, newer, ForViewer(viewer));
  }

  /** The text of the ENGAGEMENT_RECEIVED notification. */
  function CompletedMessage(name: string): string {
    name + " has completed engagement."
  }

  /** The feed with its form state; the session and the store are shared with the rest of the app. */
  class LayoutView {
    const session: App.Session
    const store: Db.Database
    var payloadUrls: seq<string>
    var newFolderName: string
    var showDeployModal: bool
    var showFolderModal: bool

    constructor (session: App.Session, store: Db.Database)
      ensures this.session == session && this.store == store
      ensures payloadUrls == ["", ""] && newFolderName == "" && !showDeployModal && !showFolderModal
    {
      this.session := session;
      this.store := store;
      payloadUrls := ["", ""];
      newFolderName := "";
      showDeployModal := false;
      showFolderModal := false;
    }

    /**
     * `handleDeploy`: without a signed-in user or a selected folder nothing
     * happens; otherwise the card is upserted, the session synced with the
     * rows that come back, and the form reset.
     */
    method HandleDeploy(cardId: string, now: nat, fetched: App.PartyData)
      requires store.Valid()
      requires forall i :: 0 <= i < |store.cards| ==> store.cards[i].id != cardId
      modifies this, session, store
      ensures store.Valid()
      ensures old(session.state).currentUser.None? || !Db.Truthy(old(session.state).activeFolderId) ==>
        && store.cards == old(store.cards) && session.state == old(session.state)
        && payloadUrls == old(payloadUrls) && showDeployModal == old(showDeployModal)
      ensures old(session.state).currentUser.Some? && Db.Truthy(old(session.state).activeFolderId) ==>
        && store.cards == old(store.cards) + [DeployedCard(old(session.state).currentUser.value,
             old(session.state).activeFolderId.value, old(payloadUrls), cardId, now)]
        && session.state == App.Synced(old(session.state), fetched)
        && payloadUrls == ["", ""] && !showDeployModal
      ensures store.parties == old(store.parties) && store.folders == old(store.folders)
      ensures store.logs == old(store.logs) && store.notifications == old(store.notifications)
      ensures newFolderName == old(newFolderName) && showFolderModal == old(showFolderModal)
    {
      var s := session.state;
      if s.currentUser.None? || !Db.Truthy(s.activeFolderId) {
        return;
      }
      var card := DeployedCard(s.currentUser.value, s.activeFolderId.value, payloadUrls, cardId, now);
      store.UpsertCard(card);
      var _ := session.SyncData(fetched);
      showDeployModal := false;
      payloadUrls := ["", ""];
    }

    /**
     * `handleCreateFolder`: without a signed-in user or a folder name nothing
     * happens; otherwise the folder is stored under the user's party, the
     * session synced, and the form reset.
     */
    method HandleCreateFolder(now: nat, fetched: App.PartyData)
      requires store.Valid()
      modifies this, session, store
      ensures store.Valid()
      ensures old(session.state).currentUser.None? || old(newFolderName) == "" ==>
        && store.folders == old(store.folders) && session.state == old(session.state)
        && newFolderName == old(newFolderName) && showFolderModal == old(showFolderModal)
      ensures old(session.state).currentUser.Some? && old(newFolderName) != "" ==>
        && store.folders == old(store.folders) + [Folder("folder-" + NatToString(now),
             old(session.state).currentUser.value.partyId, old(newFolderName), None, None,
             old(session.state).currentUser.value.id)]
        && session.state == App.Synced(old(session.state), fetched)
        && newFolderName == "" && !showFolderModal
      ensures store.parties == old(store.parties) && store.cards == old(store.cards)
      ensures store.logs == old(store.logs) && store.notifications == old(store.notifications)
      ensures payloadUrls == old(payloadUrls) && showDeployModal == old(showDeployModal)
    {
      var s := session.state;
      if s.currentUser.None? || newFolderName == "" {
        return;
      }
      var user := s.currentUser.value;
      store.CreateFolder(Folder("folder-" + NatToString(now), user.partyId, newFolderName, None, None, user.id));
      var _ := session.SyncData(fetched);
      showFolderModal := false;
      newFolderName := "";
    }

    /**
     * `handleEngagementAction`: logs the viewer's visit of a post; the store
     * stamps it DONE. The session is not synced, so the feed's log list
     * stays as it was until the next sync.
     */
    method HandleEngagementAction(card: Card, postId: string, logId: string, now: nat)
      requires store.Valid()
      modifies store
      ensures store.Valid()
      ensures old(session.state).currentUser.None? ==> store.logs == old(store.logs)
      ensures old(session.state).currentUser.Some? ==>
        store.logs == old(store.logs) +
          [EngagementLog(logId, old(session.state).currentUser.value.id, card.id, postId, Done, None, now)]
      ensures store.parties == old(store.parties) && store.folders == old(store.folders)
      ensures store.cards == old(store.cards) && store.notifications == old(store.notifications)
    {
      var s := session.state;
      if s.currentUser.None? {
        return;
      }
      store.LogEngagement(Db.LogDraft(s.currentUser.value.id, card.id, postId, None, None), logId, now);
    }

    /**
     * `handleEngagementDone` ("Connect Now"): notifies the card's owner and
     * syncs the session. It writes no log.
     */
    method HandleEngagementDone(card: Card, notificationId: string, now: nat, fetched: App.PartyData)
      requires store.Valid()
      modifies session, store
      ensures store.Valid()
      ensures old(session.state).currentUser.None? ==>
        store.notifications == old(store.notifications) && session.state == old(session.state)
      ensures old(session.state).currentUser.Some? ==>
        && store.notifications == old(store.notifications) +
             [Notification(notificationId, card.userId, old(session.state).currentUser.value.id,
                           old(session.state).currentUser.value.name, EngagementReceived,
                           CompletedMessage(old(session.state).currentUser.value.name), now, false)]
        && session.state == App.Synced(old(session.state), fetched)
      ensures store.logs == old(store.logs)
      ensures store.parties == old(store.parties) && store.folders == old(store.folders) && store.cards == old(store.cards)
    {
      var s := session.state;
      if s.currentUser.None? {
        return;
      }
      var user := s.currentUser.value;
      store.AddNotification(Db.NotificationDraft(card.userId, user.id, user.name, EngagementReceived, CompletedMessage(user.name)),
                            notificationId, now);
      var _ := session.SyncData(fetched);
    }
  }
}
