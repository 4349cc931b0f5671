/**
 * The notification service: the mark-as-read calls, the unread view and the
 * unread count.
 */
module Notifications {
  import opened Wrappers
  import opened Js
  import opened Text
  import opened Types
  import opened Lists
  import Config
  import Client

  /** `getAllNotifications`. */
  function GetAll(): Client.Call {
    Client.Get(Config.Path(Config.NOTIFICATIONS), [])
  }

  /** `markAsRead(id)`: a PATCH with an empty object body. */
  function MarkAsRead(id: int): Client.Call {
    Client.Patch(Config.Path(Config.NOTIFICATION_MARK_READ), Obj(map[]), Client.IdParam(id))
  }

  /** `markAllAsRead()`: a POST with an empty object body. */
  function MarkAllAsRead(): Client.Call {
    Client.Post(Config.Path(Config.NOTIFICATION_MARK_ALL_READ), Obj(map[]), [])
  }

  /** Mark-as-read PATCHes `{}` to `/api/notifications/<id>/read`. */
  lemma MarkAsReadTarget(id: int, baseURL: string)
    ensures MarkAsRead(id).verb == Client.PATCH && MarkAsRead(id).body == Some(Obj(map[]))
    ensures Client.Url(baseURL, MarkAsRead(id).endpoint, MarkAsRead(id).params)
      == Client.Prefix(baseURL) + "/api/notifications/" + IntToString(id) + "/read"
  {
    Client.ByIdTargetWithin(Config.NOTIFICATION_MARK_READ, baseURL, id, "/api/notifications/", "/read");
  }

  /** Mark-all POSTs `{}` to `/api/notifications/read-all`. */
  lemma MarkAllAsReadTarget(baseURL: string)
    ensures MarkAllAsRead().verb == Client.POST && MarkAllAsRead().body == Some(Obj(map[]))
    ensures Client.Url(baseURL, MarkAllAsRead().endpoint, MarkAllAsRead().params) == Client.Prefix(baseURL) + "/api/notifications/read-all"
  {
    Client.PlainUrl(baseURL, "/api/notifications/read-all");
  }

  /** `getUnreadNotifications`: exactly the unread notifications, in fetched order. */
  function Unread(fetched: ApiResponse<seq<Notification>>): (r: ApiResponse<seq<Notification>>)
    ensures !Fetched(fetched) ==> r == fetched
    ensures Fetched(fetched) ==> r.success && r.data.Some? && r.error.None? && r.message.None?
    ensures Fetched(fetched) ==> Sublist(r.data.value, fetched.data.value)
    ensures Fetched(fetched) ==> forall i :: 0 <= i < |r.data.value| ==> !r.data.value[i].read
    ensures Fetched(fetched) ==> forall i :: 0 <= i < |fetched.data.value| && !fetched.data.value[i].read ==>
      fetched.data.value[i] in r.data.value
  {
    Refine(fetched, xs => Filter(xs, (n: Notification) => !n.read))
  }

  /** The read notifications, the other half of the partition. */
  function Read(xs: seq<Notification>): seq<Notification> {
    Filter(xs, (n: Notification) => n.read)
  }

  /**
   * `getUnreadCount`: on a successful fetch, the number of unread
   * notifications; otherwise `{ success: false, error }` carrying the
   * fetch's error (absent when it had none), and no data.
   */
  function UnreadCount(fetched: ApiResponse<seq<Notification>>): (r: ApiResponse<int>)
    ensures Fetched(fetched) ==> r == Ok(|Unread(fetched).data.value|)
    ensures Fetched(fetched) ==> 0 <= r.data.value <= |fetched.data.value|
    ensures !Fetched(fetched) ==> !r.success && r.data.None? && r.message.None? && r.error == fetched.error
  {
    var unread := Unread(fetched);
    if unread.success && unread.data.Some? then Ok(|unread.data.value|)
    else ApiResponse(false, None, None, unread.error)
  }

  /** The unread count plus the number of read notifications is the number fetched. */
  lemma UnreadCountComplement(fetched: ApiResponse<seq<Notification>>)
    requires Fetched(fetched)
    ensures UnreadCount(fetched).data.value + |Read(fetched.data.value)| == |fetched.data.value|
  {
    FilterPartition(fetched.data.value, (n: Notification) => !n.read, (n: Notification) => n.read);
  }
}
