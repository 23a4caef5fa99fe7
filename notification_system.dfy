/** The notification list of `NotificationProvider` in
    components/NotificationSystem.tsx: notifications are appended with an id,
    removed by id, or all cleared; a notification that is not persistent and has
    a positive duration schedules its own removal. The random id and the timer are
    inputs and outputs of the model rather than effects. */
module NotificationSystem {
  import opened InterviewTypes

  datatype Kind = Success | Error | Warning | Info

  /** What a caller passes to `showNotification`: everything but the id. An absent
      `persistent` flag is false. */
  datatype Request = Request(kind: Kind, title: string, message: string, duration: Option<int>, persistent: bool)

  datatype Notification = Notification(id: string, kind: Kind, title: string, message: string, duration: int, persistent: bool)

  /** A scheduled call of `hideNotification(id)` after `delay` milliseconds. */
  datatype Timer = Timer(id: string, delay: int)

  const DefaultDuration: int := 5000

  /** The stored notification: the request with its id, and 5000 milliseconds when
      no duration was given. */
  function Filled(r: Request, id: string): Notification {
    Notification(id, r.kind, r.title, r.message,
      match r.duration case Some(d) => d case None => DefaultDuration,
      r.persistent)
  }

  /** Whether showing `n` schedules its removal. */
  predicate AutoHides(n: Notification) {
    !n.persistent && n.duration > 0
  }

  /** `prev.filter(n => n.id !== id)`. */
  function Without(list: seq<Notification>, id: string): (r: seq<Notification>)
    ensures |r| <= |list|
    ensures forall n :: n in r <==> n in list && n.id != id
    decreases |list|
  {
    if list == [] then []
    else if list[0].id == id then Without(list[1..], id)
    else [list[0]] + Without(list[1..], id)
  }

  /** The ids on the list. */
  function Ids(list: seq<Notification>): set<string> {
    set n | n in list :: n.id
  }

  // ===========================================================================
  // Properties

  /** The duration defaults only when it is absent, so an explicit 0 is kept and
      such a notification stays until it is closed; removal is scheduled exactly for
      a notification that is not persistent and has a positive duration. */
  lemma FilledDuration(r: Request, id: string)
    ensures r.duration == None ==> Filled(r, id).duration == DefaultDuration && AutoHides(Filled(r, id)) == !r.persistent
    ensures r.duration == Some(0) ==> Filled(r, id).duration == 0 && !AutoHides(Filled(r, id))
    ensures r.duration.Some? ==> Filled(r, id).duration == r.duration.value
    ensures Filled(r, id).id == id && Filled(r, id).title == r.title && Filled(r, id).kind == r.kind
    ensures r.persistent ==> !AutoHides(Filled(r, id))
  {
  }

  /** Removing keeps the order of the remaining notifications: removal distributes
      over concatenation. */
  lemma {:induction false} WithoutAppend(a: seq<Notification>, b: seq<Notification>, id: string)
    ensures Without(a + b, id) == Without(a, id) + Without(b, id)
    decreases |a|
  {
    if a == [] {
      assert a + b == b;
    } else {
      assert (a + b)[1..] == a[1..] + b;
      WithoutAppend(a[1..], b, id);
    }
  }

  /** Removing an id nobody has leaves the list as it is. */
  lemma {:induction false} WithoutUnknown(list: seq<Notification>, id: string)
    requires id !in Ids(list)
    ensures Without(list, id) == list
    decreases |list|
  {
    if list != [] {
      assert list[0] in list;
      assert Ids(list[1..]) <= Ids(list) by {
        forall x | x in Ids(list[1..]) ensures x in Ids(list) {
          var n :| n in list[1..] && n.id == x;
          assert n in list;
        }
      }
      WithoutUnknown(list[1..], id);
    }
  }

  /** Removing twice is removing once. */
  lemma WithoutIdempotent(list: seq<Notification>, id: string)
    ensures Without(Without(list, id), id) == Without(list, id)
  {
    WithoutUnknown(Without(list, id), id);
  }

  /** Showing a notification under a new id and then hiding that id gives back the
      list as it was before; hiding any other id afterwards keeps the new one last. */
  lemma ShowThenHide(list: seq<Notification>, r: Request, id: string, other: string)
    requires id !in Ids(list)
    ensures Without(list + [Filled(r, id)], id) == list
    ensures other != id ==> Without(list + [Filled(r, id)], other) == Without(list, other) + [Filled(r, id)]
  {
    WithoutAppend(list, [Filled(r, id)], id);
    WithoutUnknown(list, id);
    WithoutAppend(list, [Filled(r, id)], other);
  }

  // ===========================================================================
  // The provider

  class NotificationProvider {
    var notifications: seq<Notification>

    constructor ()
      ensures notifications == []
    {
      notifications := [];
    }

    /** `showNotification(request)` with `id` as the generated id; returns the
        removal it schedules, if any. */
    method ShowNotification(r: Request, id: string) returns (timer: Option<Timer>)
      modifies this
      ensures notifications == old(notifications) + [Filled(r, id)]
      ensures timer.Some? <==> AutoHides(Filled(r, id))
      ensures timer.Some? ==> timer.value == Timer(id, Filled(r, id).duration)
    {
      var n := Filled(r, id);
      notifications := notifications + [n];
      if !r.persistent && n.duration > 0 {
        timer := Some(Timer(id, n.duration));
      } else {
        timer := None;
      }
    }

    method HideNotification(id: string)
      modifies this
      ensures notifications == Without(old(notifications), id)
    {
      notifications := Without(notifications, id);
    }

    method ClearAll()
      modifies this
      ensures notifications == []
    {
      notifications := [];
    }
  }
}
