/** Presence bookkeeping (lib/realtime/presence.ts): the per-user colour hash, the record a
    client publishes about itself, and the two queries over the shared presence state.

    The presence channel is a log of the `track`/`untrack` calls made on it. `Date.now()`
    is a `now` argument. The presence state arrives as the ordered list of
    `Object.values(state)`, each entry holding the records published under one key. */
module Presence {
  import opened Common

  // ===========================================================================
  // getUserColor

  const TwoTo32: int := 0x1_0000_0000
  const TwoTo31: int := 0x8000_0000

  /** ECMAScript ToInt32 on an integral number: wrap into [-2^31, 2^31). */
  function ToInt32(x: int): (r: int)
    ensures -TwoTo31 <= r < TwoTo31
    ensures (x - r) % TwoTo32 == 0
  {
    var m := x % TwoTo32;
    if m >= TwoTo31 then m - TwoTo32 else m
  }

  /** The UTF-16 code units of a string, the values `charCodeAt` reads. */
  function CodeUnits(s: string): (r: seq<int>)
    ensures |r| >= |s|
    ensures forall i :: 0 <= i < |r| ==> 0 <= r[i] < 0x1_0000
  {
    if s == [] then []
    else
      var c := s[|s| - 1] as int;
      var tail := if c < 0x1_0000 then [c]
                  else [0xD800 + (c - 0x1_0000) / 0x400, 0xDC00 + (c - 0x1_0000) % 0x400];
      CodeUnits(s[..|s| - 1]) + tail
  }

  /** One loop step: `code + ((hash << 5) - hash)`. The shift works on ToInt32(hash) and
      wraps; the subtraction and the addition do not. */
  function HashStep(hash: int, code: int): int {
    code + (ToInt32(ToInt32(hash) * 32) - hash)
  }

  /** The hash after consuming all of `units`. */
  function Hash(units: seq<int>): int {
    if units == [] then 0 else HashStep(Hash(units[..|units| - 1]), units[|units| - 1])
  }

  const Palette: seq<string> :=
    ["#FF6B6B", "#4ECDC4", "#45B7D1", "#FFA07A", "#98D8C8", "#F7DC6F", "#BB8FCE", "#85C1E2"]

  function Abs(x: int): nat { if x < 0 then -x else x }

  /** The colour `getUserColor` returns: the palette entry at |hash| mod 8. */
  function UserColor(userId: string): (color: string)
    ensures color in Palette
  {
    Palette[Abs(Hash(CodeUnits(userId))) % |Palette|]
  }

  method GetUserColor(userId: string) returns (color: string)
    ensures color == UserColor(userId)
    ensures color in Palette
  {
    var units := CodeUnits(userId);
    var hash := 0;
    for i := 0 to |units|
      invariant hash == Hash(units[..i])
    {
      assert units[..i + 1][..i] == units[..i];
      hash := units[i] + (ToInt32(ToInt32(hash) * 32) - hash);
    }
    assert units[..|units|] == units;
    color := Palette[Abs(hash) % |Palette|];
  }

  /** The empty id hashes to 0 and gets the first colour. */
  lemma EmptyIdColor()
    ensures UserColor("") == "#FF6B6B"
  {
  }

  lemma MultipleOfTwoTo32(a: int, b: int, k: int)
    requires a % TwoTo32 == 0 && b % TwoTo32 == 0
    ensures (a + b) % TwoTo32 == 0
    ensures (k * a) % TwoTo32 == 0
  {
    var p, q := a / TwoTo32, b / TwoTo32;
    assert a == TwoTo32 * p;
    assert b == TwoTo32 * q;
    assert a + b == TwoTo32 * (p + q);
    assert k * a == TwoTo32 * (k * p);
  }

  /** Each step is the classic `hash * 31 + code`, up to a multiple of 2^32. */
  lemma HashStepIsTimes31(hash: int, code: int)
    ensures (HashStep(hash, code) - (31 * hash + code)) % TwoTo32 == 0
  {
    var h := ToInt32(hash);
    var a := h * 32;
    // HashStep - (31 * hash + code) == (ToInt32(a) - a) + 32 * (h - hash)
    assert (a - ToInt32(a)) % TwoTo32 == 0;
    assert (hash - h) % TwoTo32 == 0;
    MultipleOfTwoTo32(a - ToInt32(a), hash - h, 32);
    MultipleOfTwoTo32(a - ToInt32(a), 32 * (hash - h), 1);
    assert HashStep(hash, code) - (31 * hash + code) == -((a - ToInt32(a)) + 32 * (hash - h));
    MultipleOfTwoTo32((a - ToInt32(a)) + 32 * (hash - h), 0, -1);
  }

  /** Single characters below 2^16 hash to their own code, so "a" gets palette entry 97 mod 8. */
  lemma SingleCharColor()
    ensures Hash(CodeUnits("a")) == 97
    ensures UserColor("a") == "#4ECDC4"
  {
    assert CodeUnits("a") == [97];
    assert [97][..0] == [];
  }

  // ===========================================================================
  // Presence records

  datatype Cursor = Cursor(blockIndex: int, offset: int)

  datatype PresenceUser = PresenceUser(
    userId: string,
    userName: string,
    userEmail: string,
    sectionId: Option<string>,
    cursorPosition: Option<Cursor>,
    color: string,
    lastSeen: int)

  /** The records published under one presence key. */
  datatype PresenceEntry = PresenceEntry(key: string, presences: seq<PresenceUser>)

  /** `Object.values(presenceState)`, in iteration order. */
  type PresenceState = seq<PresenceEntry>

  /** The records of the first `n` entries, in iteration order. */
  function FlattenUpTo(state: PresenceState, n: nat): seq<PresenceUser>
    requires n <= |state|
  {
    if n == 0 then [] else FlattenUpTo(state, n - 1) + state[n - 1].presences
  }

  /** All records of the state, in iteration order. */
  function Flatten(state: PresenceState): seq<PresenceUser> {
    FlattenUpTo(state, |state|)
  }

  /** The test `getUsersInSection` applies to each record. */
  function InSectionTest(sectionId: string, self: string): PresenceUser -> bool {
    (u: PresenceUser) => u.sectionId == Some(sectionId) && u.userId != self
  }

  /** The records in section `sectionId` published by anyone other than `self`. */
  function InSection(users: seq<PresenceUser>, sectionId: string, self: string): seq<PresenceUser> {
    Filter(InSectionTest(sectionId, self), users)
  }

  /** A record is listed exactly when it is in the section and was published by someone
      else; the caller's own records never are. */
  lemma InSectionMembers(users: seq<PresenceUser>, sectionId: string, self: string)
    ensures forall u :: u in InSection(users, sectionId, self) <==>
              u in users && u.sectionId == Some(sectionId) && u.userId != self
  {
    FilterMembers(InSectionTest(sectionId, self), users);
  }

  const ActiveThreshold: int := 30000

  /** The test `getActiveUsers` applies to each record. */
  function ActiveTest(now: int, self: string): PresenceUser -> bool {
    (u: PresenceUser) => u.userId != self && now - u.lastSeen < ActiveThreshold
  }

  /** The records of others seen less than 30 seconds before `now`. */
  function Active(users: seq<PresenceUser>, now: int, self: string): seq<PresenceUser> {
    Filter(ActiveTest(now, self), users)
  }

  /** A record is listed exactly when someone else published it less than 30 seconds
      before `now`. */
  lemma ActiveMembers(users: seq<PresenceUser>, now: int, self: string)
    ensures forall u :: u in Active(users, now, self) <==>
              u in users && u.userId != self && now - u.lastSeen < ActiveThreshold
  {
    FilterMembers(ActiveTest(now, self), users);
  }

  lemma {:induction false} FlattenUpToMembers(state: PresenceState, n: nat, u: PresenceUser)
    requires n <= |state|
    ensures u in FlattenUpTo(state, n) <==> exists i :: 0 <= i < n && u in state[i].presences
  {
    if n > 0 {
      FlattenUpToMembers(state, n - 1, u);
    }
  }

  /** Every record of every entry takes part in the queries, and nothing else does. */
  lemma FlattenMembers(state: PresenceState, u: PresenceUser)
    ensures u in Flatten(state) <==> exists e :: e in state && u in e.presences
  {
    FlattenUpToMembers(state, |state|, u);
    if u in Flatten(state) {
      var i :| 0 <= i < |state| && u in state[i].presences;
      assert state[i] in state;
    }
  }

  /** The threshold is strict: seen 29 seconds ago is active, 30 seconds ago is not. */
  lemma ActiveThresholdIsStrict(u: PresenceUser, now: int, self: string)
    requires u.userId != self
    ensures u.lastSeen == now - 29000 ==> Active([u], now, self) == [u]
    ensures u.lastSeen == now - 30000 ==> Active([u], now, self) == []
  {
  }

  // ===========================================================================
  // PresenceManager

  /** A call made on the presence channel. */
  datatype ChannelCall = Track(record: PresenceUser) | Untrack

  class PresenceManager {
    const reportId: string
    const userId: string
    const userName: string
    const userEmail: string
    /** The topic of the joined channel, if any. */
    var channel: Option<string>
    var currentUser: Option<PresenceUser>
    var hasHandler: bool
    /** Every `track`/`untrack` call made so far, oldest first. */
    var calls: seq<ChannelCall>

    constructor (reportId: string, userId: string, userName: string, userEmail: string)
      ensures this.reportId == reportId && this.userId == userId
      ensures this.userName == userName && this.userEmail == userEmail
      ensures channel == None && currentUser == None && !hasHandler && calls == []
    {
      this.reportId := reportId;
      this.userId := userId;
      this.userName := userName;
      this.userEmail := userEmail;
      channel := None;
      currentUser := None;
      hasHandler := false;
      calls := [];
    }

    /** Publishes a fresh record: no section, no cursor, this user's colour, seen now. */
    method Join(topic: string, now: int)
      modifies this
      ensures channel == Some(topic) && hasHandler
      ensures currentUser == Some(PresenceUser(userId, userName, userEmail, None, None, UserColor(userId), now))
      ensures calls == old(calls) + [Track(currentUser.value)]
    {
      channel := Some(topic);
      hasHandler := true;
      var color := GetUserColor(userId);
      var me := PresenceUser(userId, userName, userEmail, None, None, color, now);
      currentUser := Some(me);
      calls := calls + [Track(me)];
    }

    /** Republishes the record with a new section; nothing happens before `Join`. */
    method UpdateSection(sectionId: Option<string>, now: int)
      modifies this
      ensures channel == old(channel) && hasHandler == old(hasHandler)
      ensures !(old(currentUser).Some? && old(channel).Some?) ==>
                currentUser == old(currentUser) && calls == old(calls)
      ensures old(currentUser).Some? && old(channel).Some? ==>
                currentUser == Some(old(currentUser).value.(sectionId := sectionId, lastSeen := now)) &&
                calls == old(calls) + [Track(currentUser.value)]
    {
      if currentUser.Some? && channel.Some? {
        var me := currentUser.value.(sectionId := sectionId, lastSeen := now);
        currentUser := Some(me);
        calls := calls + [Track(me)];
      }
    }

    /** Republishes the record with a new cursor; nothing happens before `Join`. */
    method UpdateCursor(blockIndex: int, offset: int, now: int)
      modifies this
      ensures channel == old(channel) && hasHandler == old(hasHandler)
      ensures !(old(currentUser).Some? && old(channel).Some?) ==>
                currentUser == old(currentUser) && calls == old(calls)
      ensures old(currentUser).Some? && old(channel).Some? ==>
                currentUser == Some(old(currentUser).value.(cursorPosition := Some(Cursor(blockIndex, offset)),
                                                            lastSeen := now)) &&
                calls == old(calls) + [Track(currentUser.value)]
    {
      if currentUser.Some? && channel.Some? {
        var me := currentUser.value.(cursorPosition := Some(Cursor(blockIndex, offset)), lastSeen := now);
        currentUser := Some(me);
        calls := calls + [Track(me)];
      }
    }

    /** Untracks and forgets the channel and record; a second call does nothing. */
    method Leave()
      modifies this
      ensures hasHandler == old(hasHandler)
      ensures old(channel).Some? ==> channel == None && currentUser == None && calls == old(calls) + [Untrack]
      ensures old(channel).None? ==> channel == None && currentUser == old(currentUser) && calls == old(calls)
    {
      if channel.Some? {
        calls := calls + [Untrack];
        channel := None;
        currentUser := None;
      }
    }

    /** A presence `sync` event: the handler, once installed, receives the whole state. */
    method OnSync(state: PresenceState) returns (call: Option<PresenceState>)
      ensures call == if hasHandler then Some(state) else None
    {
      call := None;
      if hasHandler {
        call := Some(state);
      }
    }

    method GetUsersInSection(sectionId: string, state: PresenceState) returns (users: seq<PresenceUser>)
      ensures users == InSection(Flatten(state), sectionId, userId)
      ensures forall u :: u in users ==> u.userId != userId && u.sectionId == Some(sectionId)
    {
      ghost var test := InSectionTest(sectionId, userId);
      users := [];
      for i := 0 to |state|
        invariant users == InSection(FlattenUpTo(state, i), sectionId, userId)
      {
        var presences := state[i].presences;
        ghost var before := FlattenUpTo(state, i);
        for j := 0 to |presences|
          invariant users == Filter(test, before) + FilterUpTo(test, presences, j)
        {
          var presence := presences[j];
          if presence.sectionId == Some(sectionId) && presence.userId != userId {
            users := users + [presence];
          }
        }
        FilterAppend(test, before, presences);
      }
      InSectionMembers(Flatten(state), sectionId, userId);
    }

    method GetActiveUsers(state: PresenceState, now: int) returns (users: seq<PresenceUser>)
      ensures users == Active(Flatten(state), now, userId)
      ensures forall u :: u in users ==> u.userId != userId && now - u.lastSeen < ActiveThreshold
    {
      ghost var test := ActiveTest(now, userId);
      users := [];
      for i := 0 to |state|
        invariant users == Active(FlattenUpTo(state, i), now, userId)
      {
        var presences := state[i].presences;
        ghost var before := FlattenUpTo(state, i);
        for j := 0 to |presences|
          invariant users == Filter(test, before) + FilterUpTo(test, presences, j)
        {
          var presence := presences[j];
          if presence.userId != userId && now - presence.lastSeen < ActiveThreshold {
            users := users + [presence];
          }
        }
        FilterAppend(test, before, presences);
      }
      ActiveMembers(Flatten(state), now, userId);
    }
  }
}
