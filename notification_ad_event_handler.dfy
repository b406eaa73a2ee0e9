/**
 The contract of NotificationAdEventHandler::FireEvent as its unit tests fix
 it: an event fires exactly when an ad with that placement id has been saved;
 the delegate then hears the hook for that event type with the saved ad, and
 otherwise hears that the event failed to fire; the callback gets the same
 verdict together with the placement id and event type it was asked about.
 */
module NotificationAdEvents {
  import opened Wrappers

  /** mojom::NotificationAdEventType. */
  datatype EventType = ServedImpression | ViewedImpression | Clicked | Dismissed | TimedOut

  /** NotificationAdInfo: keyed by its placement id; everything else about it is opaque here. */
  datatype NotificationAd = NotificationAd(placementId: string, creative: string)

  /** One call the handler makes on its delegate. */
  datatype DelegateCall =
    | OnDidFireServedEvent(ad: NotificationAd)
    | OnDidFireViewedEvent(ad: NotificationAd)
    | OnDidFireClickedEvent(ad: NotificationAd)
    | OnDidFireDismissedEvent(ad: NotificationAd)
    | OnDidFireTimedOutEvent(ad: NotificationAd)
    | OnFailedToFireEvent(placementId: string, eventType: EventType)

  /** The arguments FireNotificationAdEventHandlerCallback is run with. */
  datatype CallbackRun = CallbackRun(success: bool, placementId: string, eventType: EventType)

  /** The delegate hook that reports a fired event of type `eventType`. */
  function DidFireHook(eventType: EventType, ad: NotificationAd): (c: DelegateCall)
    ensures !c.OnFailedToFireEvent? && c.ad == ad
  {
    match eventType
    case ServedImpression => OnDidFireServedEvent(ad)
    case ViewedImpression => OnDidFireViewedEvent(ad)
    case Clicked => OnDidFireClickedEvent(ad)
    case Dismissed => OnDidFireDismissedEvent(ad)
    case TimedOut => OnDidFireTimedOutEvent(ad)
  }

  /** Which event type a success hook reports. */
  function ReportedType(c: DelegateCall): EventType {
    match c
    case OnDidFireServedEvent(_) => ServedImpression
    case OnDidFireViewedEvent(_) => ViewedImpression
    case OnDidFireClickedEvent(_) => Clicked
    case OnDidFireDismissedEvent(_) => Dismissed
    case OnDidFireTimedOutEvent(_) => TimedOut
    case OnFailedToFireEvent(_, eventType) => eventType
  }

  /** The one delegate call a FireEvent makes, given the saved ads. */
  function Notification(ads: map<string, NotificationAd>, placementId: string, eventType: EventType): DelegateCall {
    if placementId in ads then DidFireHook(eventType, ads[placementId])
    else OnFailedToFireEvent(placementId, eventType)
  }

  /** The callback run a FireEvent makes, given the saved ads. */
  function Completion(ads: map<string, NotificationAd>, placementId: string, eventType: EventType): CallbackRun {
    CallbackRun(placementId in ads, placementId, eventType)
  }

  /** The success hook is told about the event type that was fired, and no two types share a hook. */
  lemma HookReportsItsType(eventType: EventType, other: EventType, ad: NotificationAd)
    ensures ReportedType(DidFireHook(eventType, ad)) == eventType
    ensures DidFireHook(eventType, ad) == DidFireHook(other, ad) ==> eventType == other
  {
  }

  /**
   The delegate call and the callback agree: the delegate hears a success
   hook exactly when the callback reports success, and both speak of the
   requested event type.
   */
  lemma ChannelsAgree(ads: map<string, NotificationAd>, placementId: string, eventType: EventType)
    ensures !Notification(ads, placementId, eventType).OnFailedToFireEvent? <==>
              Completion(ads, placementId, eventType).success
    ensures ReportedType(Notification(ads, placementId, eventType)) == eventType
    ensures Completion(ads, placementId, eventType).placementId == placementId
    ensures Completion(ads, placementId, eventType).eventType == eventType
  {
  }

  /** A saved ad fires every event type, and the hook carries that very ad. */
  lemma SavedAdFires(ads: map<string, NotificationAd>, ad: NotificationAd, eventType: EventType)
    requires ad.placementId in ads && ads[ad.placementId] == ad
    ensures Completion(ads, ad.placementId, eventType) == CallbackRun(true, ad.placementId, eventType)
    ensures Notification(ads, ad.placementId, eventType) == DidFireHook(eventType, ad)
  {
  }

  /** A placement id without a saved ad fails for every event type, and no success hook runs. */
  lemma UnknownPlacementIdFails(ads: map<string, NotificationAd>, placementId: string, eventType: EventType)
    requires placementId !in ads
    ensures Completion(ads, placementId, eventType) == CallbackRun(false, placementId, eventType)
    ensures Notification(ads, placementId, eventType) == OnFailedToFireEvent(placementId, eventType)
  {
  }

  /** NotificationAdManager: the store that saved notification ads live in, by placement id. */
  class NotificationAdManager {
    var ads: map<string, NotificationAd>

    constructor ()
      ensures ads == map[]
    {
      ads := map[];
    }

    /** Saves `ad` under its placement id. */
    method Add(ad: NotificationAd)
      modifies this
      ensures ads == old(ads)[ad.placementId := ad]
    {
      ads := ads[ad.placementId := ad];
    }
  }

  /** A delegate that records every call made on it, in order (the test's strict mock). */
  class DelegateRecorder {
    var calls: seq<DelegateCall>

    constructor ()
      ensures calls == []
    {
      calls := [];
    }

    method Notify(call: DelegateCall)
      modifies this
      ensures calls == old(calls) + [call]
    {
      calls := calls + [call];
    }
  }

  class NotificationAdEventHandler {
    const manager: NotificationAdManager
    var delegate: DelegateRecorder?

    constructor (manager: NotificationAdManager)
      ensures this.manager == manager && delegate == null
    {
      this.manager := manager;
      delegate := null;
    }

    /** Replaces the single delegate slot. */
    method SetDelegate(delegate: DelegateRecorder)
      modifies this
      ensures this.delegate == delegate
    {
      this.delegate := delegate;
    }

    /**
     Fires `eventType` for the ad saved under `placementId`: exactly one call on
     the delegate (if one is set) and exactly one callback run, which agree.
     Nothing else changes.
     */
    method FireEvent(placementId: string, eventType: EventType) returns (run: CallbackRun)
      modifies delegate
      ensures run == CallbackRun(placementId in manager.ads, placementId, eventType)
      ensures delegate != null ==>
                delegate.calls == old(delegate.calls) + [Notification(manager.ads, placementId, eventType)]
      ensures manager.ads == old(manager.ads)
    {
      var ad := if placementId in manager.ads then Some(manager.ads[placementId]) else None;
      if ad.None? {
        if delegate != null {
          delegate.Notify(OnFailedToFireEvent(placementId, eventType));
        }
        return CallbackRun(false, placementId, eventType);
      }
      if delegate != null {
        delegate.Notify(DidFireHook(eventType, ad.value));
      }
      return CallbackRun(true, placementId, eventType);
    }
  }

  /**
   The fixture and one of the FireServedEvent/FireViewedEvent/FireClickedEvent/
   FireDismissedEvent/FireTimedOutEvent tests: set the delegate, save an ad,
   fire `eventType` for it. Returns the callback run and what the delegate heard.
   */
  method FireEventForSavedAd(ad: NotificationAd, eventType: EventType) returns (run: CallbackRun, heard: seq<DelegateCall>)
    ensures run == CallbackRun(true, ad.placementId, eventType)
    ensures heard == [DidFireHook(eventType, ad)]
  {
    var manager := new NotificationAdManager();
    var recorder := new DelegateRecorder();
    var handler := new NotificationAdEventHandler(manager);
    handler.SetDelegate(recorder);
    manager.Add(ad);
    run := handler.FireEvent(ad.placementId, eventType);
    heard := recorder.calls;
  }

  /**
   The DoNotFireEventIfMissingPlacementId test: an ad is saved, but the event is
   fired for another placement id.
   */
  method FireEventForMissingPlacementId(ad: NotificationAd, missingPlacementId: string, eventType: EventType)
    returns (run: CallbackRun, heard: seq<DelegateCall>)
    requires missingPlacementId != ad.placementId
    ensures run == CallbackRun(false, missingPlacementId, eventType)
    ensures heard == [OnFailedToFireEvent(missingPlacementId, eventType)]
  {
    var manager := new NotificationAdManager();
    var recorder := new DelegateRecorder();
    var handler := new NotificationAdEventHandler(manager);
    handler.SetDelegate(recorder);
    manager.Add(ad);
    run := handler.FireEvent(missingPlacementId, eventType);
    heard := recorder.calls;
  }
}
