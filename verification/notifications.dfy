/**
 * The notification panel (src/components/NotificationModal.tsx): a list of
 * notifications that can all be marked read or dismissed one id at a
 * time, and the count of unread ones shown in its header.
 */
module Notifications {
  import opened KeyedLists

  datatype Notification = Notification(id: string, title: string, message: string, time: string, isRead: bool)

  function NotificationId(n: Notification): string { n.id }

  /** The three notifications the panel starts with. */
  const InitialNotifications: seq<Notification> := [
    Notification("1", "Bienvenue !",
      "Bienvenue sur Le Spécial Goût. Découvrez nos délicieuses spécialités.", "Maintenant", false),
    Notification("2", "Promotion",
      "Profitez de -20% sur tous les plats togolais ce week-end !", "2 heures", false),
    Notification("3", "Livraison gratuite",
      "Pour toute commande de plus de 15000 FCFA, la livraison est offerte.", "1 jour", true)
  ]

  /** `unreadCount`: how many notifications are not read. It is at most the
      length of the list, 0 exactly when every one is read, and the length
      exactly when none is. */
  function UnreadCount(list: seq<Notification>): (r: nat)
    ensures r <= |list|
    ensures r == 0 <==> forall i :: 0 <= i < |list| ==> list[i].isRead
    ensures r == |list| <==> forall i :: 0 <= i < |list| ==> !list[i].isRead
  {
    if list == [] then 0
    else
      var rest := UnreadCount(list[1..]);
      assert forall i :: 1 <= i < |list| ==> list[i] == list[1..][i - 1];
      (if list[0].isRead then 0 else 1) + rest
  }

  /** `markAllAsRead`: every notification read, nothing else about the list
      changed. */
  function MarkAllAsRead(list: seq<Notification>): (r: seq<Notification>)
    ensures |r| == |list|
    ensures forall i :: 0 <= i < |list| ==> r[i] == list[i].(isRead := true)
  {
    seq(|list|, i requires 0 <= i < |list| => list[i].(isRead := true))
  }

  /** After marking all as read nothing is unread, and marking again
      changes nothing. */
  lemma MarkAllAsReadClears(list: seq<Notification>)
    ensures UnreadCount(MarkAllAsRead(list)) == 0
    ensures MarkAllAsRead(MarkAllAsRead(list)) == MarkAllAsRead(list)
  {
  }

  /** `removeNotification(id)`: every notification with that id dismissed,
      the others kept in order. */
  function RemoveNotification(list: seq<Notification>, id: string): (r: seq<Notification>)
    ensures !HasId(r, NotificationId, id)
    ensures IsSublist(r, list)
    ensures forall i :: 0 <= i < |list| && list[i].id != id ==> list[i] in r
    ensures !HasId(list, NotificationId, id) ==> r == list
  {
    RemoveIdIsSublist(list, NotificationId, id);
    RemoveId(list, NotificationId, id)
  }

  /** Dismissing notifications that are all read leaves the unread count as
      it was; dismissing never raises it. */
  lemma {:induction false} RemoveReadKeepsCount(list: seq<Notification>, id: string)
    ensures UnreadCount(RemoveNotification(list, id)) <= UnreadCount(list)
    ensures (forall i :: 0 <= i < |list| && list[i].id == id ==> list[i].isRead) ==>
      UnreadCount(RemoveNotification(list, id)) == UnreadCount(list)
  {
    if list != [] {
      RemoveReadKeepsCount(list[1..], id);
      var r := RemoveNotification(list, id);
      var rest := RemoveNotification(list[1..], id);
      if list[0].id == id {
        assert r == rest;
      } else {
        assert r == [list[0]] + rest;
        assert r[1..] == rest;
      }
      assert forall i :: 1 <= i < |list| ==> list[i] == list[1..][i - 1];
    }
  }

  /** The panel opens on three notifications, two of them unread. */
  lemma InitialCounts()
    ensures |InitialNotifications| == 3 && UnreadCount(InitialNotifications) == 2
    ensures UniqueIds(InitialNotifications, NotificationId)
  {
    var l := InitialNotifications;
    assert l[1..][1..][1..] == [];
    assert UnreadCount(l[1..][1..]) == 0;
    assert UnreadCount(l[1..]) == 1;
  }
}
