/** Sending one notification (notifier.service.ts, notify-dispatch.processor.ts):
    quiet hours put the job back in the queue instead. */
module Notifier {
  import opened Common
  import opened QuietHours
  import Text

  datatype Channel = InApp | Telegram | Email | Push | Zalo

  datatype Prefs = Prefs(hasTelegramChat: bool, quietStart: Option<string>, quietEnd: Option<string>)

  datatype Notification = Notification(urgent: bool, attempted: seq<Channel>, succeeded: set<Channel>)

  datatype Job = Job(notificationId: nat, due: int)

  function Externals(channels: seq<Channel>): (r: seq<Channel>)
    ensures forall c :: c in r <==> c in channels && c != InApp
  {
    if channels == [] then []
    else
      var n := |channels| - 1;
      assert channels == channels[..n] + [channels[n]];
      Externals(channels[..n]) + if channels[n] != InApp then [channels[n]] else []
  }

  /** What one dispatch makes of a notification, and how long it asks to wait, given
      the two bounds of quiet hours. */
  function Sent(n: Notification, hasChat: bool, start: Option<Minute>, end: Option<Minute>, now: int, delivered: bool)
    : (Notification, int)
  {
    if Externals(n.attempted) == [] then (n, 0)
    else
      var wait := if n.urgent then 0 else WaitMs(start, end, now);
      if 0 < wait then (n, wait)
      else if Telegram in n.attempted && hasChat && delivered
      then (n.(succeeded := n.succeeded + {Telegram}), 0)
      else (n, 0)
  }

  function Dispatched(n: Notification, prefs: Prefs, now: int, delivered: bool): (Notification, int) {
    Sent(n, prefs.hasTelegramChat, Bound(prefs.quietStart), Bound(prefs.quietEnd), now, delivered)
  }

  /** Whatever the preferences say: a notification only waits when both bounds can be
      read.  It is left as it was, and goes out when its job comes back: it is not put
      off again, however late the job is up to the time between two quiet periods. */
  lemma PutOffAtMostOnce(n: Notification, hasChat: bool, start: Option<Minute>, end: Option<Minute>,
                         now: int, lag: int, delivered: bool, delivered': bool)
    requires 0 < Sent(n, hasChat, start, end, now, delivered).1 && 0 <= lag
    ensures start.Some? && end.Some? && Sent(n, hasChat, start, end, now, delivered).0 == n
    ensures lag <= (Ahead(end.value, start.value) - 1) * MINUTE_MS ==>
              var due := now + Sent(n, hasChat, start, end, now, delivered).1;
              var (sent, wait) := Sent(n, hasChat, start, end, due + lag, delivered');
              && wait == 0
              && (Telegram in n.attempted && hasChat && delivered' ==> Telegram in sent.succeeded)
  {
    if lag <= (Ahead(end.value, start.value) - 1) * MINUTE_MS {
      WaitsOnce(start.value, end.value, now, lag);
    }
  }

  /** Exactly what becomes of a notification: one that is urgent, is for the application
      alone, has no two readable bounds or is outside quiet hours goes out at once, which
      only Telegram can confirm; any other one waits for the rest of them. */
  lemma SentIff(n: Notification, hasChat: bool, start: Option<Minute>, end: Option<Minute>, now: int, delivered: bool)
    ensures var (sent, wait) := Sent(n, hasChat, start, end, now, delivered);
            var external := exists c :: c in n.attempted && c != InApp;
            && (0 < wait <==>
                && external && !n.urgent && start.Some? && end.Some?
                && Ahead(start.value, LocalMinute(now)) < Ahead(start.value, end.value))
            && (0 < wait ==> sent == n && wait == Ahead(LocalMinute(now), end.value) * MINUTE_MS)
            && (wait <= 0 ==> wait == 0 && sent == n.(succeeded := sent.succeeded)
                              && forall c :: c in sent.succeeded <==>
                                   c in n.succeeded || (c == Telegram && Telegram in n.attempted && hasChat && delivered))
  {
    assert Externals(n.attempted) == [] <==> !exists c :: c in n.attempted && c != InApp by {
      if Externals(n.attempted) != [] {
        assert Externals(n.attempted)[0] in Externals(n.attempted);
      }
    }
    if start.Some? && end.Some? {
      DeferIsRestOfTheArc(start.value, end.value, now);
      AheadCases(start.value, LocalMinute(now));
      AheadCases(start.value, end.value);
      AheadCases(LocalMinute(now), end.value);
    }
  }

  const NIGHT := Prefs(true, Some("22:00"), Some("07:00"))

  /** At ten in the evening in Vietnam a message that is not urgent waits nine hours. */
  lemma WaitsForTheMorning(n: Notification, delivered: bool)
    requires !n.urgent && Telegram in n.attempted
    ensures Dispatched(n, NIGHT, 15 * 60 * MINUTE_MS, delivered) == (n, 9 * 60 * MINUTE_MS)
  {
    assert Telegram in Externals(n.attempted);
  }

  class NotifierService {
    var notifications: map<nat, Notification>

    constructor (notifications: map<nat, Notification>)
      ensures this.notifications == notifications
    {
      this.notifications := notifications;
    }

    method Dispatch(id: nat, prefs: Prefs, now: int, delivered: bool) returns (deferUntilMs: int)
      modifies this
      ensures id !in old(notifications) ==> deferUntilMs == 0 && notifications == old(notifications)
      ensures id in old(notifications) ==>
                var (sent, wait) := Dispatched(old(notifications)[id], prefs, now, delivered);
                notifications == old(notifications)[id := sent] && deferUntilMs == wait
    {
      if id !in notifications {
        return 0;
      }
      var notification := notifications[id];
      var externals := Externals(notification.attempted);
      if externals == [] {
        return 0;
      }
      if !notification.urgent {
        var deferMs := QuietHoursDeferMs(prefs.quietStart, prefs.quietEnd, now);
        if deferMs > 0 {
          return deferMs;
        }
      }
      var succeeded := notification.succeeded;
      for i := 0 to |externals|
        invariant succeeded == if Telegram in externals[..i] && prefs.hasTelegramChat && delivered
                               then notification.succeeded + {Telegram} else notification.succeeded
      {
        assert externals[..i + 1] == externals[..i] + [externals[i]];
        if externals[i] == Telegram && prefs.hasTelegramChat && delivered {
          succeeded := succeeded + {Telegram};
        }
      }
      assert externals[..|externals|] == externals;
      notifications := notifications[id := notification.(succeeded := succeeded)];
      deferUntilMs := 0;
    }
  }

  class NotifyDispatchProcessor {
    const notifier: NotifierService
    var queue: multiset<Job>

    constructor (notifier: NotifierService)
      ensures this.notifier == notifier && queue == multiset{}
    {
      this.notifier, queue := notifier, multiset{};
    }

    /** Takes a due job; puts it back only when the notification has to wait. */
    method Process(job: Job, prefs: Prefs, now: int, delivered: bool)
      requires job in queue && job.due <= now
      modifies this, notifier
      ensures job.notificationId !in old(notifier.notifications) ==>
                queue == old(queue) - multiset{job} && notifier.notifications == old(notifier.notifications)
      ensures job.notificationId in old(notifier.notifications) ==>
                var (sent, wait) := Dispatched(old(notifier.notifications)[job.notificationId], prefs, now, delivered);
                && notifier.notifications == old(notifier.notifications)[job.notificationId := sent]
                && queue == old(queue) - multiset{job}
                            + if 0 < wait then multiset{Job(job.notificationId, now + wait)} else multiset{}
    {
      queue := queue - multiset{job};
      var deferUntilMs := notifier.Dispatch(job.notificationId, prefs, now, delivered);
      if deferUntilMs > 0 {
        queue := queue + multiset{Job(job.notificationId, now + deferUntilMs)};
      }
    }
  }
}
