/**
 * The per-card verification gate of components/UserCard.tsx. A viewer
 * looking at somebody's card must first open the profile, then visit every
 * post; the card's log list decides which buttons are enabled and what the
 * footer shows. The log list is the `logs` prop the card was rendered with:
 * it changes only when the parent passes a new one.
 */
module UserCard {
  import opened Wrappers
  import opened Types
  import opened Seqs
  import Db
  import AdminScoreboard

  /** `l.cardId === card.id && l.viewerId === viewerId`. */
  function OnCardBy(cardId: string, viewerId: string): EngagementLog -> bool {
    (l: EngagementLog) => l.cardId == cardId && l.viewerId == viewerId
  }

  /** `l.cardId === card.id && l.status === 'DONE'`. */
  function DoneOnCard(cardId: string): EngagementLog -> bool {
    (l: EngagementLog) => l.cardId == cardId && l.status == Done
  }

  /** `l.viewerId === card.userId && l.status === 'DONE'`. */
  function DoneByOwner(card: Card): EngagementLog -> bool {
    (l: EngagementLog) => l.viewerId == card.userId && l.status == Done
  }

  function IsDoneLog(l: EngagementLog): bool {
    l.status == Done
  }

  /** `cardLogs`: this viewer's logs on this card, in log order. */
  function CardLogs(card: Card, viewerId: string, logs: seq<EngagementLog>): (r: seq<EngagementLog>)
    ensures |r| <= |logs|
    ensures forall i :: 0 <= i < |r| ==> r[i] in logs && r[i].cardId == card.id && r[i].viewerId == viewerId
    ensures forall i :: 0 <= i < |logs| && logs[i].cardId == card.id && logs[i].viewerId == viewerId ==> logs[i] in r
  {
    var r := Filter(logs, OnCardBy(card.id, viewerId));
    assert forall i :: 0 <= i < |r| ==> OnCardBy(card.id, viewerId)(r[i]);
    assert forall i :: 0 <= i < |logs| && logs[i].cardId == card.id && logs[i].viewerId == viewerId ==>
      OnCardBy(card.id, viewerId)(logs[i]);
    r
  }

  /** `clickedPostIds`: the post ids of `cardLogs`. */
  function ClickedPostIds(card: Card, viewerId: string, logs: seq<EngagementLog>): (ids: seq<string>)
    ensures |ids| == |CardLogs(card, viewerId, logs)|
  {
    var cl := CardLogs(card, viewerId, logs);
    seq(|cl|, i requires 0 <= i < |cl| => cl[i].postId)
  }

  /** Some log records this viewer visiting this post of this card. */
  ghost predicate Clicked(card: Card, viewerId: string, logs: seq<EngagementLog>, postId: string) {
    exists i :: 0 <= i < |logs| && logs[i].cardId == card.id && logs[i].viewerId == viewerId && logs[i].postId == postId
  }

  /** `hasCompletedAllPosts`: the card has posts and every one of them was clicked. */
  predicate HasCompletedAllPosts(card: Card, viewerId: string, logs: seq<EngagementLog>): (b: bool)
    ensures b <==> |card.posts| > 0 && forall i :: 0 <= i < |card.posts| ==> Clicked(card, viewerId, logs, card.posts[i].id)
  {
    assert forall i :: 0 <= i < |card.posts| ==>
      (card.posts[i].id in ClickedPostIds(card, viewerId, logs) <==> Clicked(card, viewerId, logs, card.posts[i].id)) by {
      forall i | 0 <= i < |card.posts| {
        ClickedPostIdsExact(card, viewerId, logs, card.posts[i].id);
      }
    }
    |card.posts| > 0 && forall i :: 0 <= i < |card.posts| ==> card.posts[i].id in ClickedPostIds(card, viewerId, logs)
  }

  /** `isDone`: some of this viewer's logs on this card is DONE. */
  predicate IsDone(card: Card, viewerId: string, logs: seq<EngagementLog>) {
    Any(CardLogs(card, viewerId, logs), IsDoneLog)
  }

  /** `stats.received`: DONE logs on this card, by any viewer. */
  function Received(card: Card, logs: seq<EngagementLog>): (n: nat)
    ensures n <= |logs|
  {
    |Filter(logs, DoneOnCard(card.id))|
  }

  /** `stats.given`: DONE logs whose viewer is the card's owner. */
  function Given(card: Card, logs: seq<EngagementLog>): (n: nat)
    ensures n <= |logs|
  {
    |Filter(logs, DoneByOwner(card))|
  }

  /** The footer of the card. */
  datatype Footer =
    | PayloadActive      // "PAYLOAD ACTIVE": the viewer's own card
    | ConnectionSecured  // "CONNECTION SECURED"
    | ConnectNow         // the "Connect Now" button
    | Step01Required     // "Step 01 Required": the profile is not opened yet
    | Step02Incomplete   // "Step 02 Incomplete": some post is not visited yet

  function CardFooter(card: Card, viewerId: string, logs: seq<EngagementLog>, profileOpened: bool): (f: Footer)
    ensures f == PayloadActive <==> card.userId == viewerId
    ensures f == ConnectionSecured <==> card.userId != viewerId && IsDone(card, viewerId, logs)
    ensures f == ConnectNow <==>
      card.userId != viewerId && !IsDone(card, viewerId, logs) && HasCompletedAllPosts(card, viewerId, logs) && profileOpened
    ensures f == Step01Required <==> card.userId != viewerId && !IsDone(card, viewerId, logs) && !profileOpened
    ensures f == Step02Incomplete <==>
      card.userId != viewerId && !IsDone(card, viewerId, logs) && profileOpened && !HasCompletedAllPosts(card, viewerId, logs)
  {
    if card.userId == viewerId then PayloadActive
    else if IsDone(card, viewerId, logs) then ConnectionSecured
    else if HasCompletedAllPosts(card, viewerId, logs) && profileOpened then ConnectNow
    else if !profileOpened then Step01Required
    else Step02Incomplete
  }

  /** A post id is in `clickedPostIds` exactly when a log records this viewer visiting it on this card. */
  lemma ClickedPostIdsExact(card: Card, viewerId: string, logs: seq<EngagementLog>, postId: string)
    ensures postId in ClickedPostIds(card, viewerId, logs) <==> Clicked(card, viewerId, logs, postId)
  {
    var cl := CardLogs(card, viewerId, logs);
    var ids := ClickedPostIds(card, viewerId, logs);
    if postId in ids {
      var j :| 0 <= j < |ids| && ids[j] == postId;
      assert cl[j] in logs;
      var i :| 0 <= i < |logs| && logs[i] == cl[j];
      assert OnCardBy(card.id, viewerId)(cl[j]);
    }
    if Clicked(card, viewerId, logs, postId) {
      var i :| 0 <= i < |logs| && logs[i].cardId == card.id && logs[i].viewerId == viewerId && logs[i].postId == postId;
      assert OnCardBy(card.id, viewerId)(logs[i]);
      assert logs[i] in cl;
      var j :| 0 <= j < |cl| && cl[j] == logs[i];
      assert ids[j] == postId;
    }
  }

  /** `isDone` holds exactly when some log of this viewer on this card has status DONE. */
  lemma IsDoneExact(card: Card, viewerId: string, logs: seq<EngagementLog>)
    ensures IsDone(card, viewerId, logs) <==>
      exists i :: 0 <= i < |logs| && logs[i].cardId == card.id && logs[i].viewerId == viewerId && logs[i].status == Done
  {
    var cl := CardLogs(card, viewerId, logs);
    if IsDone(card, viewerId, logs) {
      var j :| 0 <= j < |cl| && IsDoneLog(cl[j]);
      assert cl[j] in logs;
      var i :| 0 <= i < |logs| && logs[i] == cl[j];
      assert OnCardBy(card.id, viewerId)(cl[j]);
    }
    if exists i :: 0 <= i < |logs| && logs[i].cardId == card.id && logs[i].viewerId == viewerId && logs[i].status == Done {
      var i :| 0 <= i < |logs| && logs[i].cardId == card.id && logs[i].viewerId == viewerId && logs[i].status == Done;
      assert OnCardBy(card.id, viewerId)(logs[i]);
      assert logs[i] in cl;
      var j :| 0 <= j < |cl| && cl[j] == logs[i];
      assert IsDoneLog(cl[j]);
    }
  }

  /** A card without posts can never be completed. */
  lemma NoPostsNeverCompleted(card: Card, viewerId: string, logs: seq<EngagementLog>)
    requires card.posts == []
    ensures !HasCompletedAllPosts(card, viewerId, logs)
    ensures CardFooter(card, viewerId, logs, true) != ConnectNow
  {
  }

  /** "Connect Now" appears only after the profile was opened and every post of the card was visited by this viewer. */
  lemma ConnectNowRequiresProof(card: Card, viewerId: string, logs: seq<EngagementLog>, profileOpened: bool)
    requires CardFooter(card, viewerId, logs, profileOpened) == ConnectNow
    ensures profileOpened && card.userId != viewerId && |card.posts| > 0
    ensures forall i :: 0 <= i < |card.posts| ==> Clicked(card, viewerId, logs, card.posts[i].id)
  {
    forall i | 0 <= i < |card.posts| ensures Clicked(card, viewerId, logs, card.posts[i].id) {
      ClickedPostIdsExact(card, viewerId, logs, card.posts[i].id);
    }
  }

  /**
   * Every log the store holds is DONE (`logEngagement` stamps each click
   * DONE), so the first recorded click already makes the card DONE for its
   * viewer and "Connect Now" never appears.
   */
  lemma ConnectNowUnreachable(card: Card, viewerId: string, logs: seq<EngagementLog>, profileOpened: bool)
    requires Db.AllDone(logs)
    ensures CardFooter(card, viewerId, logs, profileOpened) != ConnectNow
  {
    if HasCompletedAllPosts(card, viewerId, logs) {
      ClickedPostIdsExact(card, viewerId, logs, card.posts[0].id);
      var i :| 0 <= i < |logs| && logs[i].cardId == card.id && logs[i].viewerId == viewerId && logs[i].postId == card.posts[0].id;
      IsDoneExact(card, viewerId, logs);
    }
  }

  /** After the entry `logEngagement` writes for one post click, the viewer is DONE with the card. */
  lemma FirstClickCompletes(card: Card, viewerId: string, logs: seq<EngagementLog>, entry: EngagementLog)
    requires entry.cardId == card.id && entry.viewerId == viewerId && entry.status == Done
    ensures IsDone(card, viewerId, logs + [entry])
    ensures card.userId != viewerId ==> CardFooter(card, viewerId, logs + [entry], true) == ConnectionSecured
  {
    IsDoneExact(card, viewerId, logs + [entry]);
    assert (logs + [entry])[|logs|] == entry;
  }

  /** Once a click on a post is recorded, the post counts as clicked; a second click then records nothing. */
  lemma RecordedClickIsClicked(card: Card, viewerId: string, logs: seq<EngagementLog>, entry: EngagementLog)
    requires entry.cardId == card.id && entry.viewerId == viewerId
    ensures entry.postId in ClickedPostIds(card, viewerId, logs + [entry])
  {
    ClickedPostIdsExact(card, viewerId, logs + [entry], entry.postId);
    assert (logs + [entry])[|logs|] == entry;
  }

  /** Recording one more log raises `received` by one exactly when that log is a DONE log on this card. */
  lemma {:induction false} ReceivedAfterLog(card: Card, logs: seq<EngagementLog>, entry: EngagementLog)
    ensures Received(card, logs + [entry]) ==
      Received(card, logs) + (if entry.cardId == card.id && entry.status == Done then 1 else 0)
  {
    FilterConcat(logs, [entry], DoneOnCard(card.id));
  }

  /** `given` is the owner's completed-engagement count on the dashboard. */
  lemma GivenIsOwnersEngagementsDone(card: Card, owner: User, cards: seq<Card>, logs: seq<EngagementLog>)
    requires owner.id == card.userId
    ensures Given(card, logs) == AdminScoreboard.MemberStanding(owner, cards, logs).engagementsDone
  {
    FilterSame(logs, DoneByOwner(card), AdminScoreboard.DoneBy(owner.id));
  }

  /** One rendered card, with its local `profileOpened` state. */
  class CardGate {
    const card: Card
    const viewerId: string
    var logs: seq<EngagementLog>
    var profileOpened: bool

    constructor (card: Card, viewerId: string, logs: seq<EngagementLog>)
      ensures this.card == card && this.viewerId == viewerId && this.logs == logs && !profileOpened
    {
      this.card := card;
      this.viewerId := viewerId;
      this.logs := logs;
      profileOpened := false;
    }

    predicate IsOwnCard() {
      card.userId == viewerId
    }

    /**
     * The profile button is enabled unless the viewer is done or owns the
     * card: exactly while the footer still shows one of the gate's steps.
     */
    predicate ProfileButtonEnabled(): (b: bool)
      reads this
      ensures b <==> Footer() in {ConnectNow, Step01Required, Step02Incomplete}
    {
      !(IsDone(card, viewerId, logs) || IsOwnCard())
    }

    /**
     * A post button is enabled once the profile was opened, unless the viewer
     * is done or owns the card: the profile step comes first.
     */
    predicate PostButtonEnabled(): (b: bool)
      reads this
      ensures b <==> ProfileButtonEnabled() && profileOpened
      ensures b ==> Footer() != Step01Required
    {
      !(IsOwnCard() || IsDone(card, viewerId, logs) || !profileOpened)
    }

    function Footer(): Footer
      reads this
    {
      CardFooter(card, viewerId, logs, profileOpened)
    }

    /**
     * `verifyProfile`: opens the first post's page and marks the profile
     * opened, when the card has a post; the flag is never cleared.
     */
    method VerifyProfile() returns (url: Option<string>)
      modifies this
      ensures logs == old(logs)
      ensures profileOpened <==> old(profileOpened) || |card.posts| > 0
      ensures |card.posts| > 0 ==> url == Some(card.posts[0].url)
      ensures |card.posts| == 0 ==> url == None
    {
      if |card.posts| > 0 {
        url := Some(card.posts[0].url);
        profileOpened := true;
      } else {
        url := None;
      }
    }

    /**
     * `handlePostClick`: opens the post's page, and asks the parent to log
     * the visit (the returned post id) only for a post not visited yet.
     */
    method HandlePostClick(post: Post) returns (url: string, action: Option<string>)
      ensures url == post.url
      ensures action.Some? <==> !Clicked(card, viewerId, logs, post.id)
      ensures action.Some? ==> action.value == post.id
    {
      ClickedPostIdsExact(card, viewerId, logs, post.id);
      url := post.url;
      if post.id in ClickedPostIds(card, viewerId, logs) {
        action := None;
      } else {
        action := Some(post.id);
      }
    }

    /** A re-render with a new `logs` prop; the local state survives it. */
    method ReceiveLogs(newLogs: seq<EngagementLog>)
      modifies this
      ensures logs == newLogs && profileOpened == old(profileOpened)
    {
      logs := newLogs;
    }

    /** On one's own card every button is disabled and the footer is "PAYLOAD ACTIVE". */
    lemma OwnCardLocked()
      requires IsOwnCard()
      ensures !ProfileButtonEnabled() && !PostButtonEnabled() && Footer() == PayloadActive
    {
    }
  }
}
