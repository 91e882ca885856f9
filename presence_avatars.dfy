/** The avatar strip (components/collaboration/presence-avatars.tsx): which users get an
    avatar, the "+n" overflow badge, and the initials shown in each avatar. */
module PresenceAvatars {
  import opened Common
  import opened Presence

  /** The end index `Array.prototype.slice(0, end)` uses: a negative end counts from the
      back, and the result is clamped to the array. */
  function SliceEnd(length: nat, end: int): (r: nat)
    ensures r <= length
    ensures 0 <= end ==> r == if end < length then end else length
  {
    if end < 0 then (if length + end < 0 then 0 else length + end)
    else if end < length then end
    else length
  }

  /** What the component renders: the avatars, and the badge count if it shows one. */
  datatype AvatarStrip = AvatarStrip(shown: seq<PresenceUser>, initials: seq<string>, badge: Option<int>)

  /** `userName.substring(0, 2).toUpperCase()`. */
  function Initials(userName: string): (r: string)
    ensures |r| == if |userName| < 2 then |userName| else 2
    ensures forall i :: 0 <= i < |r| ==> r[i] == UpperChar(userName[i])
  {
    Upper(userName[..if |userName| < 2 then |userName| else 2])
  }

  /** The `maxDisplay` prop's default. */
  const DefaultMaxDisplay: int := 5

  /** The component's output; `None` when there are no users (it renders nothing). */
  function Avatars(users: seq<PresenceUser>, maxDisplay: int): (r: Option<AvatarStrip>)
    ensures r.None? <==> users == []
  {
    if |users| == 0 then None
    else
      var shown := users[..SliceEnd(|users|, maxDisplay)];
      var overflow := |users| - maxDisplay;
      Some(AvatarStrip(shown, seq(|shown|, i requires 0 <= i < |shown| => Initials(shown[i].userName)),
                       if overflow > 0 then Some(overflow) else None))
  }

  /** With a non-negative limit the first min(n, limit) users get avatars, a badge appears
      exactly when some are left over, and avatars plus badge account for every user. */
  lemma AvatarsAccountForEveryone(users: seq<PresenceUser>, maxDisplay: int)
    requires users != [] && maxDisplay >= 0
    ensures var strip := Avatars(users, maxDisplay).value;
            strip.shown == users[..if |users| < maxDisplay then |users| else maxDisplay] &&
            |strip.initials| == |strip.shown| &&
            (strip.badge.Some? <==> |users| > maxDisplay) &&
            |strip.shown| + (if strip.badge.Some? then strip.badge.value else 0) == |users|
  {
  }

  /** The default limit is 5: six users show five avatars and "+1". */
  lemma DefaultLimit(users: seq<PresenceUser>)
    requires |users| == 6
    ensures Avatars(users, DefaultMaxDisplay).value.shown == users[..5]
    ensures Avatars(users, DefaultMaxDisplay).value.badge == Some(1)
  {
  }
}
