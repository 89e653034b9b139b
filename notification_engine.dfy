/** notification_engine.go: queueing a booking response for the notification
    stage, and the hand-off of a response to the notification service. */
module NotificationUseCase {
  import opened Common
  import opened Domain
  import opened AppEngine

  /** `NotificationInteractor.SendQueue`: offers one `NotificationJob` wrapping the
      response and the service interactor; fails exactly when the engine refuses,
      and a refusal leaves the queue as it was. */
  method SendQueue(n: NotificationInteractor, cbResp: CabBookingResponse,
                   nsI: Option<NotificationServiceInteractor>) returns (err: Outcome)
    requires n.appEngine.Valid()
    modifies n.appEngine, n.appEngine.buf
    ensures n.appEngine.Valid()
    ensures var room := |old(n.appEngine.Contents)| < n.appEngine.capacity;
      && (err.Pass? <==> room)
      && (err.Fail? ==> err.error == Wrapped(NotificationJobEnqueue, QueueFull(n.appEngine.kind)))
    ensures n.appEngine.Contents ==
      if err.Pass? then old(n.appEngine.Contents) + [NotificationJob(cbResp, nsI)] else old(n.appEngine.Contents)
  {
    var job := NewNotificationJob(cbResp, nsI);
    var e := n.appEngine.AddJob(job);
    match e
    case Fail(cause) => err := Fail(Wrapped(NotificationJobEnqueue, cause));
    case Pass => err := Pass;
  }

  /** `NotificationServiceInteractor.Send`: the service's verdict, passed through
      untouched. */
  function Send(nsI: NotificationServiceInteractor, c: CabBookingResponse): (r: Outcome)
    ensures r == nsI.notificationService(c)
  {
    nsI.notificationService(c)
  }
}
