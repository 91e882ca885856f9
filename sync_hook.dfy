/** The real-time sync hook (hooks/use-realtime-sync.ts) as a session object: the state
    React keeps for one mounted editor (`isConnected`, `lastSync`, the manager reference)
    and the log of `onRemoteChange` calls. An effect run is `Setup`, its cleanup `Cleanup`. */
module SyncHook {
  import opened Common
  import opened ContentBlocks
  import opened Sync

  /** One call of the `onRemoteChange` callback. */
  datatype RemoteChange = RemoteChange(sectionId: string, contentBlocks: seq<ContentBlock>)

  /** The inbound-event filter: the client's own changes are ignored; others are passed on
      when no section is open or the change is to the open section. */
  predicate ShouldDeliver(payload: ContentChangePayload, userId: string, openSection: Option<string>) {
    payload.userId != userId && (!Truthy(openSection) || payload.sectionId == openSection.value)
  }

  /** A client's own events are never delivered; another client's event is delivered
      exactly when no section is open or it concerns the open one. */
  lemma DeliveryRule(payload: ContentChangePayload, userId: string, openSection: Option<string>)
    ensures payload.userId == userId ==> !ShouldDeliver(payload, userId, openSection)
    ensures payload.userId != userId ==>
              (ShouldDeliver(payload, userId, openSection) <==>
               openSection.None? || openSection.value == "" || payload.sectionId == openSection.value)
  {
  }

  class RealtimeSyncSession {
    const userId: string
    /** The `sectionId` prop as it is now. */
    var sectionId: Option<string>
    /** The section open when the effect last ran (captured by the handler). */
    var openSection: Option<string>
    var isConnected: bool
    var lastSync: Option<int>
    var manager: SyncManager?
    var channelUnsubscribed: bool
    var delivered: seq<RemoteChange>

    /** The manager, once created, acts for this session's user. */
    predicate Valid()
      reads this, manager
    {
      manager != null ==> manager.userId == userId
    }

    constructor (userId: string, sectionId: Option<string>)
      ensures Valid()
      ensures this.userId == userId && this.sectionId == sectionId && openSection == sectionId
      ensures !isConnected && lastSync == None && manager == null
      ensures !channelUnsubscribed && delivered == []
    {
      this.userId := userId;
      this.sectionId := sectionId;
      openSection := sectionId;
      isConnected := false;
      lastSync := None;
      manager := null;
      channelUnsubscribed := false;
      delivered := [];
    }

    /** The effect: a new manager subscribed to the report's sync channel, with a handler
        that captures the section open now, then connected. */
    method Setup(reportId: string)
      modifies this
      ensures Valid()
      ensures fresh(manager) && manager.reportId == reportId && manager.userId == userId
      ensures manager.channel == Some(Topic(reportId, "sync")) && manager.hasHandler
      ensures isConnected && openSection == sectionId == old(sectionId)
      ensures lastSync == old(lastSync) && delivered == old(delivered)
      ensures channelUnsubscribed == old(channelUnsubscribed)
    {
      var m := new SyncManager(reportId, userId);
      m.Subscribe(Topic(reportId, "sync"));
      manager := m;
      openSection := sectionId;
      isConnected := true;
    }

    /** A new `sectionId` prop: the effect depends on it, so its cleanup runs and then the
        effect again, whose handler captures the new section. `lastSync` is React state
        and survives the re-run. */
    method OnSectionChange(reportId: string, newSection: Option<string>)
      requires manager != null
      modifies this, manager
      ensures Valid() && sectionId == newSection && openSection == newSection
      ensures old(manager).channel == None && old(manager).sent == old(manager.sent)
      ensures fresh(manager) && manager.reportId == reportId && manager.userId == userId
      ensures manager.channel == Some(Topic(reportId, "sync")) && manager.hasHandler
      ensures isConnected && channelUnsubscribed
      ensures lastSync == old(lastSync) && delivered == old(delivered)
    {
      sectionId := newSection;
      Cleanup();
      Setup(reportId);
    }

    /** A replicated row update reaching the manager. */
    method OnRowUpdate(newRow: Option<SectionRow>)
      requires manager != null
      modifies this
      ensures manager == old(manager) && isConnected == old(isConnected)
      ensures channelUnsubscribed == old(channelUnsubscribed)
      ensures var call := if manager.hasHandler then Normalize(newRow) else None;
              if call.Some? && ShouldDeliver(call.value, userId, openSection) then
                delivered == old(delivered) + [RemoteChange(call.value.sectionId, call.value.contentBlocks)] &&
                lastSync == Some(call.value.timestamp)
              else
                delivered == old(delivered) && lastSync == old(lastSync)
    {
      var call := manager.HandleRowUpdate(newRow);
      if call.Some? {
        var payload := call.value;
        if payload.userId == userId {
          return;
        }
        if !Truthy(openSection) || payload.sectionId == openSection.value {
          delivered := delivered + [RemoteChange(payload.sectionId, payload.contentBlocks)];
          lastSync := Some(payload.timestamp);
        }
      }
    }

    /** The cleanup: unsubscribes the manager and the channel, then disconnects. */
    method Cleanup()
      requires manager != null
      modifies this, manager
      ensures manager == old(manager) && manager.channel == None
      ensures old(manager.channel).Some? ==> !manager.hasHandler
      ensures manager.sent == old(manager.sent)
      ensures channelUnsubscribed && !isConnected
      ensures lastSync == old(lastSync) && delivered == old(delivered)
      ensures sectionId == old(sectionId) && openSection == old(openSection)
    {
      manager.Unsubscribe();
      channelUnsubscribed := true;
      isConnected := false;
    }

    /** Forwards a local edit to the manager, if one exists. */
    method BroadcastChange(sectionId: string, contentBlocks: seq<ContentBlock>, now: int)
      requires Valid()
      modifies manager
      ensures manager != null ==> manager.channel == old(manager.channel)
      ensures manager != null && old(manager.channel).Some? ==>
                manager.sent == old(manager.sent) + [BroadcastMessage("content_change",
                  ContentChangePayload(sectionId, contentBlocks, userId, now))]
      ensures manager != null && old(manager.channel).None? ==> manager.sent == old(manager.sent)
    {
      if manager != null {
        manager.BroadcastChange(sectionId, contentBlocks, now);
      }
    }
  }
}
