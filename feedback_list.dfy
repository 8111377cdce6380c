/** The feedback list page (frontend/src/pages/FeedbackList.tsx): the page state is the
    fetched list and a loading flag; loading sorts the list newest first, acknowledging
    rewrites the matching items, and the visibility rules decide which controls show. */
module FeedbackListPage {
  import opened Domain
  import opened Recency
  import opened Crud

  /** `prev.map(f => f.id === id ? {...f, acknowledged: true, acknowledged_at: at} : f)`. */
  function MarkAcknowledged(list: seq<Feedback>, id: int, at: int): (r: seq<Feedback>)
    ensures |r| == |list|
    ensures forall i :: 0 <= i < |list| && list[i].id == id ==>
      r[i] == list[i].(acknowledged := true, acknowledgedAt := Some(at))
    ensures forall i :: 0 <= i < |list| && list[i].id != id ==> r[i] == list[i]
  {
    if list == [] then []
    else
      var head := if list[0].id == id then list[0].(acknowledged := true, acknowledgedAt := Some(at)) else list[0];
      [head] + MarkAcknowledged(list[1..], id, at)
  }

  /** The list keeps its order: the ids read the same before and after, and an id that is
      not in the list leaves the list as it was. */
  lemma MarkAcknowledgedKeepsOrder(list: seq<Feedback>, id: int, at: int)
    ensures forall i :: 0 <= i < |list| ==> MarkAcknowledged(list, id, at)[i].id == list[i].id
    ensures (forall f :: f in list ==> f.id != id) ==> MarkAcknowledged(list, id, at) == list
  {
    var r := MarkAcknowledged(list, id, at);
    if forall f :: f in list ==> f.id != id {
      assert forall i :: 0 <= i < |list| ==> r[i] == list[i];
    }
  }

  /** Given the same acknowledgement instant, the local copy of an acknowledged item agrees
      with the server's acknowledged record in every field except `updated_at`, which only
      the server moves. */
  lemma LocalAcknowledgeMatchesServer(list: seq<Feedback>, id: int, at: int, i: int)
    requires 0 <= i < |list| && list[i].id == id
    ensures MarkAcknowledged(list, id, at)[i] == Acknowledged(list[i], at).(updatedAt := list[i].updatedAt)
  {
  }

  /** `currentUser?.role === 'employee' && !item.acknowledged`: the acknowledge button. The
      page compares the stored user's role as text. */
  predicate CanAcknowledge(currentUser: Option<User>, item: Feedback)
    ensures CanAcknowledge(currentUser, item) <==>
      currentUser.Some? && RoleName(currentUser.value.role) == "employee" && !item.acknowledged
  {
    currentUser.Some? && currentUser.value.role == Employee && !item.acknowledged
  }

  /** `item.updated_at !== item.created_at`: the "Updated on" note. */
  predicate ShowsUpdatedOn(item: Feedback)
  {
    item.updatedAt != item.createdAt
  }

  /** `currentUser?.role === 'manager'`: the edit link, again a comparison of the role text. */
  predicate ShowsEditLink(currentUser: Option<User>)
    ensures ShowsEditLink(currentUser) <==> currentUser.Some? && RoleName(currentUser.value.role) == "manager"
  {
    currentUser.Some? && currentUser.value.role == Manager
  }

  /** The acknowledge button and the edit link never show together, and neither shows when
      no user is stored. */
  lemma ControlsAreRoleExclusive(currentUser: Option<User>, item: Feedback)
    ensures !(CanAcknowledge(currentUser, item) && ShowsEditLink(currentUser))
    ensures currentUser.None? ==> !CanAcknowledge(currentUser, item) && !ShowsEditLink(currentUser)
  {
  }

  /** Once acknowledged locally, no item with that id offers the acknowledge button again,
      and the "Updated on" note is as it was. */
  lemma AcknowledgedItemsHideButton(list: seq<Feedback>, id: int, at: int, currentUser: Option<User>)
    ensures var r := MarkAcknowledged(list, id, at);
      forall i :: 0 <= i < |r| && r[i].id == id ==>
        !CanAcknowledge(currentUser, r[i]) && ShowsUpdatedOn(r[i]) == ShowsUpdatedOn(list[i])
  {
  }

  /** A record whose two stamps are equal shows no "Updated on" note; after the server
      acknowledges it at a later instant it does, because the update also moves `updated_at`. */
  lemma ServerAcknowledgeShowsUpdatedOn(f: Feedback, now: int)
    requires f.updatedAt == f.createdAt && now != f.createdAt
    ensures !ShowsUpdatedOn(f)
    ensures ShowsUpdatedOn(Acknowledged(f, now))
  {
  }

  /** An edited record shows the "Updated on" note exactly when the edit happened at an
      instant other than its creation, whatever the edit supplied. */
  lemma EditShowsUpdatedOn(f: Feedback, upd: FeedbackUpdate, now: int)
    ensures ShowsUpdatedOn(Patched(f, upd, now)) <==> now != f.createdAt
  {
  }

  /** The page state: the list shown and whether the first fetch is still pending. */
  class Page {
    var feedback: seq<Feedback>
    var loading: bool

    constructor ()
      ensures feedback == [] && loading
    {
      feedback := [];
      loading := true;
    }

    /** The load effect: a fetched list is shown newest first; a failed fetch keeps the
        empty list; loading ends either way. */
    method Load(fetched: Option<seq<Feedback>>)
      modifies this
      ensures !loading
      ensures fetched.Some? ==> feedback == SortNewestFirst(fetched.value)
      ensures fetched.Some? ==> NewestFirst(feedback) && multiset(feedback) == multiset(fetched.value)
      ensures fetched.None? ==> feedback == old(feedback)
    {
      if fetched.Some? {
        feedback := SortNewestFirst(fetched.value);
      }
      loading := false;
    }

    /** `handleAcknowledge`: the list changes only when the request succeeded. */
    method HandleAcknowledge(id: int, succeeded: bool, now: int)
      modifies this
      ensures succeeded ==> feedback == MarkAcknowledged(old(feedback), id, now)
      ensures !succeeded ==> feedback == old(feedback)
      ensures |feedback| == |old(feedback)| && loading == old(loading)
    {
      if succeeded {
        feedback := MarkAcknowledged(feedback, id, now);
      }
    }
  }
}
