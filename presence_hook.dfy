/** The real-time presence hook (hooks/use-realtime-presence.ts) as a session object: the
    state React keeps (`presenceState`, `usersInSection`, `activeUsers`, the manager
    reference) and the steps that update it. The presence callback is created when the
    mount effect runs, so it sees the section that was open then (`capturedSection`); the
    section effect sees the current one. */
module PresenceHook {
  import opened Common
  import opened Presence

  /** `sectionId || null`: an absent or empty section id is published as null. */
  function PublishedSection(sectionId: Option<string>): (r: Option<string>)
    ensures Truthy(sectionId) ==> r == sectionId
    ensures !Truthy(sectionId) ==> r == None
  {
    if Truthy(sectionId) then sectionId else None
  }

  /** What the section effect shows: the other users in the open section, or nobody
      when no section is open. */
  function SectionUsers(state: PresenceState, section: Option<string>, self: string): seq<PresenceUser> {
    if Truthy(section) then InSection(Flatten(state), section.value, self) else []
  }

  class RealtimePresenceSession {
    const userId: string
    const userName: string
    const userEmail: string
    /** The `sectionId` prop as it is now. */
    var sectionId: Option<string>
    /** The `sectionId` prop when the mount effect ran. */
    var capturedSection: Option<string>
    var presenceState: PresenceState
    var usersInSection: seq<PresenceUser>
    var activeUsers: seq<PresenceUser>
    var manager: PresenceManager?
    var channelUnsubscribed: bool

    /** The manager, once created, acts for this session's user. */
    predicate Valid()
      reads this, manager
    {
      manager != null ==> manager.userId == userId
    }

    /** The record `join` publishes at time `now`. */
    function JoinRecord(now: int): PresenceUser {
      PresenceUser(userId, userName, userEmail, None, None, UserColor(userId), now)
    }

    constructor (userId: string, userName: string, userEmail: string, sectionId: Option<string>)
      ensures Valid()
      ensures this.userId == userId && this.userName == userName && this.userEmail == userEmail
      ensures this.sectionId == sectionId && capturedSection == sectionId
      ensures presenceState == [] && usersInSection == [] && activeUsers == []
      ensures manager == null && !channelUnsubscribed
    {
      this.userId := userId;
      this.userName := userName;
      this.userEmail := userEmail;
      this.sectionId := sectionId;
      capturedSection := sectionId;
      presenceState := [];
      usersInSection := [];
      activeUsers := [];
      manager := null;
      channelUnsubscribed := false;
    }

    /** The first render's effects, in declaration order: the mount effect creates a
        manager that joins the report's presence channel with a fresh record, then the
        section effect (which now sees the manager) republishes that record with the
        section. */
    method Setup(reportId: string, now: int)
      modifies this
      ensures Valid()
      ensures fresh(manager) && manager.reportId == reportId
      ensures manager.channel == Some(Topic(reportId, "presence")) && manager.hasHandler
      ensures manager.currentUser == Some(JoinRecord(now).(sectionId := PublishedSection(sectionId)))
      ensures manager.calls == [Track(JoinRecord(now)), Track(manager.currentUser.value)]
      ensures capturedSection == sectionId == old(sectionId)
      ensures usersInSection == SectionUsers(presenceState, sectionId, userId)
      ensures presenceState == old(presenceState)
      ensures activeUsers == old(activeUsers) && channelUnsubscribed == old(channelUnsubscribed)
    {
      var m := new PresenceManager(reportId, userId, userName, userEmail);
      m.Join(Topic(reportId, "presence"), now);
      manager := m;
      capturedSection := sectionId;
      SectionEffect(now);
    }

    /** The section effect, which runs whenever `sectionId` or `presenceState` has changed:
        with a manager it republishes the current section (empty becomes null) and
        recomputes the users in it from the current state, or clears them when no section
        is open; before mount it does nothing. */
    method SectionEffect(now: int)
      requires Valid()
      modifies this, manager
      ensures Valid() && manager == old(manager)
      ensures sectionId == old(sectionId) && capturedSection == old(capturedSection)
      ensures presenceState == old(presenceState) && activeUsers == old(activeUsers)
      ensures channelUnsubscribed == old(channelUnsubscribed)
      ensures manager == null ==> usersInSection == old(usersInSection)
      ensures manager != null ==> usersInSection == SectionUsers(presenceState, sectionId, userId)
      ensures manager != null ==>
                manager.channel == old(manager.channel) && manager.hasHandler == old(manager.hasHandler)
      ensures manager != null && old(manager.currentUser).Some? && old(manager.channel).Some? ==>
                manager.currentUser == Some(old(manager.currentUser).value.(
                  sectionId := PublishedSection(sectionId), lastSeen := now)) &&
                manager.calls == old(manager.calls) + [Track(manager.currentUser.value)]
      ensures manager != null && !(old(manager.currentUser).Some? && old(manager.channel).Some?) ==>
                manager.currentUser == old(manager.currentUser) && manager.calls == old(manager.calls)
    {
      if manager != null {
        manager.UpdateSection(PublishedSection(sectionId), now);
        if Truthy(sectionId) {
          usersInSection := manager.GetUsersInSection(sectionId.value, presenceState);
        } else {
          usersInSection := [];
        }
      }
    }

    /** A presence `sync`: the callback stores the state, recomputes the active users and,
        when a section was open at mount time, the users in that captured section. The new
        `presenceState` then re-runs the section effect, which republishes the record and
        recomputes the users in the current section. */
    method OnPresenceSync(state: PresenceState, now: int)
      requires Valid() && manager != null
      modifies this, manager
      ensures Valid() && manager == old(manager) && sectionId == old(sectionId)
      ensures capturedSection == old(capturedSection) && channelUnsubscribed == old(channelUnsubscribed)
      ensures manager.channel == old(manager.channel) && manager.hasHandler == old(manager.hasHandler)
      ensures !manager.hasHandler ==>
                presenceState == old(presenceState) && usersInSection == old(usersInSection) &&
                activeUsers == old(activeUsers) &&
                manager.currentUser == old(manager.currentUser) && manager.calls == old(manager.calls)
      ensures manager.hasHandler ==>
                presenceState == state && activeUsers == Active(Flatten(state), now, userId) &&
                usersInSection == SectionUsers(state, sectionId, userId)
      ensures manager.hasHandler && old(manager.currentUser).Some? && old(manager.channel).Some? ==>
                manager.currentUser == Some(old(manager.currentUser).value.(
                  sectionId := PublishedSection(sectionId), lastSeen := now)) &&
                manager.calls == old(manager.calls) + [Track(manager.currentUser.value)]
      ensures !(old(manager.currentUser).Some? && old(manager.channel).Some?) ==>
                manager.currentUser == old(manager.currentUser) && manager.calls == old(manager.calls)
    {
      var call := manager.OnSync(state);
      if call.Some? {
        presenceState := call.value;
        if Truthy(capturedSection) {
          usersInSection := manager.GetUsersInSection(capturedSection.value, call.value);
        }
        activeUsers := manager.GetActiveUsers(call.value, now);
        SectionEffect(now);
      }
    }

    /** A new `sectionId` prop, which re-runs the section effect. */
    method OnSectionChange(newSection: Option<string>, now: int)
      requires Valid()
      modifies this, manager
      ensures Valid() && manager == old(manager) && sectionId == newSection
      ensures capturedSection == old(capturedSection) && presenceState == old(presenceState)
      ensures activeUsers == old(activeUsers) && channelUnsubscribed == old(channelUnsubscribed)
      ensures manager == null ==> usersInSection == old(usersInSection)
      ensures manager != null ==> usersInSection == SectionUsers(presenceState, newSection, userId)
      ensures manager != null ==> manager.channel == old(manager.channel)
      ensures manager != null && old(manager.currentUser).Some? && old(manager.channel).Some? ==>
                manager.currentUser == Some(old(manager.currentUser).value.(
                  sectionId := PublishedSection(newSection), lastSeen := now)) &&
                manager.calls == old(manager.calls) + [Track(manager.currentUser.value)]
      ensures manager != null && !(old(manager.currentUser).Some? && old(manager.channel).Some?) ==>
                manager.currentUser == old(manager.currentUser) && manager.calls == old(manager.calls)
    {
      sectionId := newSection;
      SectionEffect(now);
    }

    /** Forwards a cursor move to the manager, if one exists. */
    method UpdateCursor(blockIndex: int, offset: int, now: int)
      modifies manager
      ensures manager != null && old(manager.currentUser).Some? && old(manager.channel).Some? ==>
                manager.currentUser == Some(old(manager.currentUser).value.(
                  cursorPosition := Some(Cursor(blockIndex, offset)), lastSeen := now)) &&
                manager.calls == old(manager.calls) + [Track(manager.currentUser.value)]
      ensures manager != null && !(old(manager.currentUser).Some? && old(manager.channel).Some?) ==>
                manager.currentUser == old(manager.currentUser) && manager.calls == old(manager.calls)
    {
      if manager != null {
        manager.UpdateCursor(blockIndex, offset, now);
      }
    }

    /** The cleanup: the manager leaves and the channel is unsubscribed. */
    method Cleanup()
      requires manager != null
      modifies this, manager
      ensures manager == old(manager) && manager.channel == None
      ensures old(manager.channel).Some? ==>
                manager.currentUser == None && manager.calls == old(manager.calls) + [Untrack]
      ensures old(manager.channel).None? ==>
                manager.currentUser == old(manager.currentUser) && manager.calls == old(manager.calls)
      ensures channelUnsubscribed
      ensures presenceState == old(presenceState) && usersInSection == old(usersInSection)
      ensures activeUsers == old(activeUsers) && sectionId == old(sectionId)
    {
      manager.Leave();
      channelUnsubscribed := true;
    }
  }
}
