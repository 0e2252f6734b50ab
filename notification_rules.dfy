/**
 * The mark-read updates of `PATCH /api/notifications`. Both are scoped to the caller, only
 * ever set `isRead` to true, and stamp `updatedAt` on the documents they match.
 */
module NotificationRules {
  import opened JsValues
  import opened ModelsTransactions

  /** The filter `{ userId: user, isRead: false }`. */
  predicate UnreadOf(n: Notification, user: Id) {
    n.userId == user && !n.isRead
  }

  /** The filter `{ userId: user, _id: { $in: ids } }`. */
  predicate ListedOf(n: Notification, user: Id, ids: seq<Id>) {
    n.userId == user && n.id in ids
  }

  /** `updateMany({ userId: user, isRead: false }, { isRead: true })` */
  function MarkAllRead(ns: seq<Notification>, user: Id, now: Time): (r: seq<Notification>)
    ensures |r| == |ns|
    ensures forall i :: 0 <= i < |r| && UnreadOf(ns[i], user) ==> r[i] == ns[i].(isRead := true, updatedAt := now)
    ensures forall i :: 0 <= i < |r| && !UnreadOf(ns[i], user) ==> r[i] == ns[i]
  {
    seq(|ns|, i requires 0 <= i < |ns| =>
      if UnreadOf(ns[i], user) then ns[i].(isRead := true, updatedAt := now) else ns[i])
  }

  /** `updateMany({ userId: user, _id: { $in: ids } }, { isRead: true })` */
  function MarkIdsRead(ns: seq<Notification>, user: Id, ids: seq<Id>, now: Time): (r: seq<Notification>)
    ensures |r| == |ns|
    ensures forall i :: 0 <= i < |r| && ListedOf(ns[i], user, ids) ==> r[i] == ns[i].(isRead := true, updatedAt := now)
    ensures forall i :: 0 <= i < |r| && !ListedOf(ns[i], user, ids) ==> r[i] == ns[i]
  {
    seq(|ns|, i requires 0 <= i < |ns| =>
      if ListedOf(ns[i], user, ids) then ns[i].(isRead := true, updatedAt := now) else ns[i])
  }

  /** Two notification lists agree on everything but `isRead` and `updatedAt`, and no read flag was cleared. */
  predicate OnlyRaisesRead(before: seq<Notification>, after: seq<Notification>) {
    |after| == |before| &&
    forall i :: 0 <= i < |after| ==>
      after[i] == before[i].(isRead := after[i].isRead, updatedAt := after[i].updatedAt)
      && (before[i].isRead ==> after[i].isRead)
  }

  /** Every notification of the caller is read afterwards; everyone else's are untouched. */
  lemma MarkAllReadEffect(ns: seq<Notification>, user: Id, now: Time)
    ensures var r := MarkAllRead(ns, user, now);
            OnlyRaisesRead(ns, r)
            && (forall i :: 0 <= i < |r| ==> (r[i].isRead <==> ns[i].isRead || ns[i].userId == user))
            && (forall i :: 0 <= i < |r| && ns[i].userId != user ==> r[i] == ns[i])
  {
  }

  /** Exactly the caller's listed notifications become read; everyone else's are untouched. */
  lemma MarkIdsReadEffect(ns: seq<Notification>, user: Id, ids: seq<Id>, now: Time)
    ensures var r := MarkIdsRead(ns, user, ids, now);
            OnlyRaisesRead(ns, r)
            && (forall i :: 0 <= i < |r| ==> (r[i].isRead <==> ns[i].isRead || ListedOf(ns[i], user, ids)))
            && (forall i :: 0 <= i < |r| && ns[i].userId != user ==> r[i] == ns[i])
  {
  }

  /** Marking all read twice is marking once, whatever the second clock reading: the second finds nothing unread. */
  lemma MarkAllReadIdempotent(ns: seq<Notification>, user: Id, t1: Time, t2: Time)
    ensures MarkAllRead(MarkAllRead(ns, user, t1), user, t2) == MarkAllRead(ns, user, t1)
  {
    var once := MarkAllRead(ns, user, t1);
    var twice := MarkAllRead(once, user, t2);
    forall i | 0 <= i < |ns|
      ensures twice[i] == once[i]
    {
      assert !UnreadOf(once[i], user);
    }
  }

  /**
   * Marking the same ids twice at the same clock reading is marking them once. (The second
   * update matches the same documents again and stamps them again, so a later clock reading
   * leaves a later `updatedAt`.)
   */
  lemma MarkIdsReadIdempotent(ns: seq<Notification>, user: Id, ids: seq<Id>, now: Time)
    ensures MarkIdsRead(MarkIdsRead(ns, user, ids, now), user, ids, now) == MarkIdsRead(ns, user, ids, now)
  {
    var once := MarkIdsRead(ns, user, ids, now);
    var twice := MarkIdsRead(once, user, ids, now);
    forall i | 0 <= i < |ns|
      ensures twice[i] == once[i]
    {
      assert ListedOf(once[i], user, ids) == ListedOf(ns[i], user, ids);
    }
  }
}
