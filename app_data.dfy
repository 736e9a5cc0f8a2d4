/** The records of the chat client's state (app.js) and the pure
    computations over them: `find` and `filter` on lists, reaction toggling,
    the member groups of the members panel, the server notification badge,
    the clamp of a panel being resized, and the top z-index. */
module AppData {
  import opened Wrappers
  import opened Lists

  // ---------------------------------------------------------------
  // Records
  // ---------------------------------------------------------------

  /** One reaction chip: emoji, count, and whether the local user is one of
      the reactors (`mine`, absent and therefore false in the demo data). */
  datatype Reaction = Reaction(e: string, c: int, mine: bool)

  datatype Author = Author(name: string, av: string, color: string)

  /** A chat message; `id` and `time` come from the clock (`Date.now()`,
      `now()`). */
  datatype Msg = Msg(id: int, author: Author, content: string, time: string, reactions: seq<Reaction>)

  /** A channel of a server; a missing `notif` is 0. */
  datatype Channel = Channel(id: string, name: string, kind: string, desc: string, notif: int)

  datatype Member = Member(name: string, tag: string, av: string, color: string, status: string, role: string)

  datatype Guild = Guild(id: string, name: string, emoji: string, channels: seq<Channel>, members: seq<Member>)

  // ---------------------------------------------------------------
  // Reactions (toggleReact, app.js:523-534)
  // ---------------------------------------------------------------

  function IsEmoji(e: string): Reaction -> bool {
    (r: Reaction) => r.e == e
  }

  function OtherEmoji(e: string): Reaction -> bool {
    (r: Reaction) => r.e != e
  }

  /** A reaction after the local user clicks it: the count moves by one
      (down when it was `mine`, up otherwise) and `mine` flips. */
  function Bumped(x: Reaction): (r: Reaction)
    ensures r.e == x.e && r.mine == !x.mine
    ensures r.c == x.c - 1 || r.c == x.c + 1
  {
    Reaction(x.e, if x.mine then x.c - 1 else x.c + 1, !x.mine)
  }

  /** A second click undoes the first. */
  lemma BumpedTwice(x: Reaction)
    ensures Bumped(Bumped(x)) == x
  {
  }

  /** The click on the existing reaction at `i`: bumped in place, and dropped
      once its count reaches zero or below. */
  function ToggledAt(rs: seq<Reaction>, e: string, i: nat): seq<Reaction>
    requires i < |rs|
  {
    var u := Bumped(rs[i]);
    if u.c <= 0 then Filter(rs[i := u], OtherEmoji(e)) else rs[i := u]
  }

  /** The reactions after the local user clicks emoji `e`: a new emoji is
      appended as `{e, c: 1, mine: true}`, the first existing one is toggled
      in place. */
  function Toggled(rs: seq<Reaction>, e: string): seq<Reaction> {
    match FirstIndex(rs, IsEmoji(e))
    case None => rs + [Reaction(e, 1, true)]
    case Some(i) => ToggledAt(rs, e, i)
  }

  /** The reactions to every other emoji are the same, in the same order. */
  lemma ToggleOthersUnchanged(rs: seq<Reaction>, e: string)
    ensures Filter(Toggled(rs, e), OtherEmoji(e)) == Filter(rs, OtherEmoji(e))
  {
    match FirstIndex(rs, IsEmoji(e))
    case None =>
      FilterSnocDropped(rs, Reaction(e, 1, true), OtherEmoji(e));
    case Some(i) =>
      ToggleAtOthersUnchanged(rs, e, i);
  }

  lemma ToggleAtOthersUnchanged(rs: seq<Reaction>, e: string, i: nat)
    requires i < |rs| && rs[i].e == e
    ensures Filter(ToggledAt(rs, e, i), OtherEmoji(e)) == Filter(rs, OtherEmoji(e))
  {
    var p := OtherEmoji(e);
    var u := Bumped(rs[i]);
    FilterUpdateDropped(rs, i, u, p);
    if u.c <= 0 {
      FilterIdempotent(rs[i := u], p);
    }
  }

  /** A new emoji is appended with count 1 and marked as the user's own. */
  lemma ToggleNew(rs: seq<Reaction>, e: string)
    requires forall i :: 0 <= i < |rs| ==> rs[i].e != e
    ensures Toggled(rs, e) == rs + [Reaction(e, 1, true)]
  {
    assert FirstIndex(rs, IsEmoji(e)).None?;
  }

  /** Where no other reaction has the emoji, the one at `i` is dropped
      exactly and the rest keep their order. */
  lemma ToggleAtDropped(rs: seq<Reaction>, e: string, i: nat)
    requires i < |rs| && rs[i].e == e && Bumped(rs[i]).c <= 0
    requires forall j :: 0 <= j < |rs| && j != i ==> rs[j].e != e
    ensures ToggledAt(rs, e, i) == rs[..i] + rs[i + 1..]
  {
    var upd := rs[i := Bumped(rs[i])];
    assert forall j :: 0 <= j < |upd| && j != i ==> OtherEmoji(e)(upd[j]);
    FilterOnlyOne(upd, i, OtherEmoji(e));
    assert upd[..i] == rs[..i] && upd[i + 1..] == rs[i + 1..];
  }

  /** An existing emoji (its first occurrence, at `i`) has its count moved
      and `mine` flipped in place, or disappears once the count is spent. */
  lemma ToggleExisting(rs: seq<Reaction>, e: string, i: nat)
    requires i < |rs| && rs[i].e == e
    requires forall j :: 0 <= j < i ==> rs[j].e != e
    ensures var c := if rs[i].mine then rs[i].c - 1 else rs[i].c + 1;
      && (c > 0 ==> Toggled(rs, e) == rs[i := Reaction(e, c, !rs[i].mine)])
      && (c <= 0 ==> forall r :: r in Toggled(rs, e) ==> r.e != e)
  {
    FirstIndexAt(rs, IsEmoji(e), i);
  }

  /** Distinct emojis, each with a positive count: the shape every list of
      reactions in the client has. */
  predicate WellFormed(rs: seq<Reaction>) {
    && (forall i :: 0 <= i < |rs| ==> rs[i].c >= 1)
    && (forall i, j :: 0 <= i < j < |rs| ==> rs[i].e != rs[j].e)
  }

  lemma FirstIndexOfUnique(rs: seq<Reaction>, e: string, i: nat)
    requires WellFormed(rs) && i < |rs| && rs[i].e == e
    ensures FirstIndex(rs, IsEmoji(e)) == Some(i)
  {
    FirstIndexAt(rs, IsEmoji(e), i);
  }

  lemma WellFormedSnoc(rs: seq<Reaction>, n: Reaction)
    requires WellFormed(rs) && n.c >= 1
    requires forall i :: 0 <= i < |rs| ==> rs[i].e != n.e
    ensures WellFormed(rs + [n])
  {
    var t := rs + [n];
    forall i, j | 0 <= i < j < |t| ensures t[i].e != t[j].e {
      assert t[i] == rs[i];
    }
  }

  lemma WellFormedRemove(rs: seq<Reaction>, i: nat)
    requires WellFormed(rs) && i < |rs|
    ensures WellFormed(rs[..i] + rs[i + 1..])
  {
    var t := rs[..i] + rs[i + 1..];
    forall k | 0 <= k < |t| ensures t[k] == rs[if k < i then k else k + 1] {
    }
  }

  /** Toggling keeps reactions well formed. */
  lemma ToggleWellFormed(rs: seq<Reaction>, e: string)
    requires WellFormed(rs)
    ensures WellFormed(Toggled(rs, e))
  {
    match FirstIndex(rs, IsEmoji(e))
    case None =>
      WellFormedSnoc(rs, Reaction(e, 1, true));
    case Some(i) =>
      ToggleAtWellFormed(rs, e, i);
  }

  lemma ToggleAtWellFormed(rs: seq<Reaction>, e: string, i: nat)
    requires WellFormed(rs) && i < |rs| && rs[i].e == e
    ensures WellFormed(ToggledAt(rs, e, i))
  {
    if Bumped(rs[i]).c <= 0 {
      ToggleAtDropped(rs, e, i);
      WellFormedRemove(rs, i);
    } else {
      assert WellFormed(rs[i := Bumped(rs[i])]);
    }
  }

  /** Toggling an emoji nobody has used adds it and then takes it away. */
  lemma ToggleTwiceAbsent(rs: seq<Reaction>, e: string)
    requires forall i :: 0 <= i < |rs| ==> rs[i].e != e
    ensures Toggled(Toggled(rs, e), e) == rs
  {
    var n := Reaction(e, 1, true);
    ToggleNew(rs, e);
    var t1 := rs + [n];
    FirstIndexAt(t1, IsEmoji(e), |rs|);
    ToggleAtDropped(t1, e, |rs|);
    assert t1[..|rs|] == rs && t1[|rs| + 1..] == [];
  }

  /** The user's own reaction with count 1 is removed, then re-added at the end. */
  lemma ToggleTwiceOwnSingle(rs: seq<Reaction>, e: string, i: nat)
    requires WellFormed(rs) && i < |rs| && rs[i] == Reaction(e, 1, true)
    ensures Toggled(Toggled(rs, e), e) == rs[..i] + rs[i + 1..] + [rs[i]]
  {
    FirstIndexOfUnique(rs, e, i);
    ToggleAtDropped(rs, e, i);
    var t1 := rs[..i] + rs[i + 1..];
    forall j | 0 <= j < |t1| ensures t1[j].e != e {
      if j < i { assert t1[j] == rs[j]; } else { assert t1[j] == rs[j + 1]; }
    }
    ToggleNew(t1, e);
  }

  /** Any other existing reaction has its count and flag moved and moved back. */
  lemma ToggleTwiceInPlace(rs: seq<Reaction>, e: string, i: nat)
    requires WellFormed(rs) && i < |rs| && rs[i].e == e
    requires rs[i] != Reaction(e, 1, true)
    ensures Toggled(Toggled(rs, e), e) == rs
  {
    FirstIndexOfUnique(rs, e, i);
    var u := Bumped(rs[i]);
    assert u.c >= 1;
    var t1 := rs[i := u];
    assert Toggled(rs, e) == t1;
    FirstIndexAt(t1, IsEmoji(e), i);
    BumpedTwice(rs[i]);
    assert Toggled(t1, e) == t1[i := rs[i]];
  }

  lemma MoveToEndPermutes<T>(s: seq<T>, i: nat)
    requires i < |s|
    ensures multiset(s[..i] + s[i + 1..] + [s[i]]) == multiset(s)
  {
    assert s == s[..i] + [s[i]] + s[i + 1..];
  }

  /** Toggling the same emoji twice restores the reactions and their counts;
      the only change possible is that a reaction of the user's own with
      count 1, removed and then re-added, moves to the end. */
  lemma ToggleTwice(rs: seq<Reaction>, e: string)
    requires WellFormed(rs)
    ensures var t := Toggled(Toggled(rs, e), e);
      && multiset(t) == multiset(rs)
      && ((forall i :: 0 <= i < |rs| ==> rs[i] != Reaction(e, 1, true)) ==> t == rs)
      && (forall i :: 0 <= i < |rs| && rs[i] == Reaction(e, 1, true) ==> t == rs[..i] + rs[i + 1..] + [rs[i]])
  {
    var t := Toggled(Toggled(rs, e), e);
    if i :| 0 <= i < |rs| && rs[i].e == e {
      if rs[i] == Reaction(e, 1, true) {
        ToggleTwiceOwnSingle(rs, e, i);
        MoveToEndPermutes(rs, i);
        forall k | 0 <= k < |rs| && rs[k] == Reaction(e, 1, true)
          ensures t == rs[..k] + rs[k + 1..] + [rs[k]]
        {
          assert k == i;
        }
      } else {
        ToggleTwiceInPlace(rs, e, i);
        forall k | 0 <= k < |rs| ensures rs[k] != Reaction(e, 1, true) {
          assert k != i ==> rs[k].e != e;
        }
      }
    } else {
      ToggleTwiceAbsent(rs, e);
    }
  }

  // ---------------------------------------------------------------
  // Messages (delMsg, editMsg, toggleReact lookups)
  // ---------------------------------------------------------------

  function HasId(id: int): Msg -> bool {
    (m: Msg) => m.id == id
  }

  function OtherId(id: int): Msg -> bool {
    (m: Msg) => m.id != id
  }

  /** `delMsg`'s filter is idempotent: deleting twice is deleting once. */
  lemma DeleteTwice(ms: seq<Msg>, id: int)
    ensures Filter(Filter(ms, OtherId(id)), OtherId(id)) == Filter(ms, OtherId(id))
  {
    FilterIdempotent(ms, OtherId(id));
  }

  /** Deleting an id no message has leaves the conversation as it is. */
  lemma DeleteAbsent(ms: seq<Msg>, id: int)
    requires forall i :: 0 <= i < |ms| ==> ms[i].id != id
    ensures Filter(ms, OtherId(id)) == ms
  {
    FilterAll(ms, OtherId(id));
  }

  // ---------------------------------------------------------------
  // Member groups (renderMembers, app.js:301-307)
  // ---------------------------------------------------------------

  predicate AdminPresent(m: Member) { m.role == "Admin" && m.status != "offline" }
  predicate ModeratorPresent(m: Member) { m.role == "Modérateur" && m.status != "offline" }
  predicate MemberOnline(m: Member) { m.role == "Membre" && m.status == "online" }
  predicate MemberAway(m: Member) { m.role == "Membre" && m.status == "away" }
  predicate Offline(m: Member) { m.status == "offline" }

  datatype Group = Group(title: string, list: seq<Member>)

  function NonEmpty(g: Group): bool {
    |g.list| > 0
  }

  const Labels: seq<string> := ["Admin", "Modérateur", "En ligne", "Absent", "Hors ligne"]

  /** The five candidate groups, in display order. */
  function AllGroups(ms: seq<Member>): seq<Group> {
    [ Group(Labels[0], Filter(ms, AdminPresent)),
      Group(Labels[1], Filter(ms, ModeratorPresent)),
      Group(Labels[2], Filter(ms, MemberOnline)),
      Group(Labels[3], Filter(ms, MemberAway)),
      Group(Labels[4], Filter(ms, Offline)) ]
  }

  /** The non-empty groups the members panel lists. */
  function MemberGroups(ms: seq<Member>): seq<Group> {
    Filter(AllGroups(ms), NonEmpty)
  }

  /** The group a member belongs to, by its index in `Labels`; none for a
      `Membre` who is neither online, away nor offline (`dnd`) and for a
      present member with any other role. */
  function GroupOf(m: Member): (r: Option<nat>)
    ensures r.Some? ==> r.value < |Labels|
  {
    if Offline(m) then Some(4)
    else if m.role == "Admin" then Some(0)
    else if m.role == "Modérateur" then Some(1)
    else if MemberOnline(m) then Some(2)
    else if MemberAway(m) then Some(3)
    else None
  }

  lemma AllGroupsOf(ms: seq<Member>, m: Member, k: nat)
    requires k < 5
    ensures m in AllGroups(ms)[k].list <==> m in ms && GroupOf(m) == Some(k)
  {
  }

  /** Every member shown is a member of the server, shown in the group its
      role and status select, and under that group's label. */
  lemma GroupsSound(ms: seq<Member>, g: Group, m: Member)
    requires g in MemberGroups(ms) && m in g.list
    ensures m in ms && GroupOf(m).Some? && g.title == Labels[GroupOf(m).value]
  {
    var all := AllGroups(ms);
    assert g in all;
    var k :| 0 <= k < 5 && all[k] == g;
    AllGroupsOf(ms, m, k);
  }

  /** Every member that has a group is shown in it. */
  lemma GroupsComplete(ms: seq<Member>, m: Member)
    requires m in ms && GroupOf(m).Some?
    ensures exists g :: g in MemberGroups(ms) && m in g.list && g.title == Labels[GroupOf(m).value]
  {
    var k := GroupOf(m).value;
    var g := AllGroups(ms)[k];
    AllGroupsOf(ms, m, k);
    assert NonEmpty(g);
    assert g in MemberGroups(ms);
  }

  // ---------------------------------------------------------------
  // Notification badge (renderServers, app.js:235)
  // ---------------------------------------------------------------

  /** `channels.reduce((a, c) => a + (c.notif || 0), 0)`. */
  function NotifSum(chs: seq<Channel>): int {
    if chs == [] then 0 else chs[0].notif + NotifSum(chs[1..])
  }

  /** The badge of a server: shown, with the sum, when some channel has a
      non-zero count. */
  function Badge(chs: seq<Channel>): Option<int> {
    if exists i :: 0 <= i < |chs| && chs[i].notif != 0 then Some(NotifSum(chs)) else None
  }

  /** Resetting one channel's count takes exactly that count off the sum. */
  lemma {:induction false} NotifSumReset(chs: seq<Channel>, i: nat)
    requires i < |chs|
    ensures NotifSum(chs[i := chs[i].(notif := 0)]) == NotifSum(chs) - chs[i].notif
  {
    if i > 0 {
      assert chs[i := chs[i].(notif := 0)][1..] == chs[1..][i - 1 := chs[i].(notif := 0)];
      NotifSumReset(chs[1..], i - 1);
    }
  }

  lemma {:induction false} NotifSumNonNegative(chs: seq<Channel>)
    requires forall i :: 0 <= i < |chs| ==> chs[i].notif >= 0
    ensures NotifSum(chs) >= 0
    ensures NotifSum(chs) == 0 <==> forall i :: 0 <= i < |chs| ==> chs[i].notif == 0
  {
    if chs != [] {
      NotifSumNonNegative(chs[1..]);
      if NotifSum(chs) == 0 {
        forall i | 0 <= i < |chs| ensures chs[i].notif == 0 {
          if i > 0 { assert chs[i] == chs[1..][i - 1]; }
        }
      }
    }
  }

  /** With counts that are never negative, the badge is shown exactly when
      the sum is positive, and then shows that sum. */
  lemma BadgeShowsPositiveSum(chs: seq<Channel>)
    requires forall i :: 0 <= i < |chs| ==> chs[i].notif >= 0
    ensures Badge(chs).Some? <==> NotifSum(chs) > 0
    ensures Badge(chs).Some? ==> Badge(chs).value == NotifSum(chs)
  {
    NotifSumNonNegative(chs);
  }

  // ---------------------------------------------------------------
  // Panel drag helpers (onDrag, app.js:842-848; getMaxZ, app.js:866-870)
  // ---------------------------------------------------------------

  /** `parseInt(x) || 0`: `None` stands for `NaN`. */
  function OrZero(v: Option<int>): int {
    match v
    case Some(n) => n
    case None => 0
  }

  function Max(a: int, b: int): int { if a >= b then a else b }
  function Min(a: int, b: int): int { if a <= b then a else b }

  /** New size of a panel resized by `(dx, dy)` from `(origW, origH)`:
      at least 140 by 80, then at most what fits in the viewport to the right
      of and below the panel's corner, with a 12px margin. */
  function PanelSize(origW: int, origH: int, dx: int, dy: int, left: Option<int>, top: Option<int>, vw: int, vh: int): (r: (int, int))
    ensures var maxW, maxH := vw - OrZero(left) - 12, vh - OrZero(top) - 12;
      && r.0 <= maxW && r.1 <= maxH
      && (maxW >= 140 ==> r.0 >= 140) && (maxH >= 80 ==> r.1 >= 80)
      && (140 <= origW + dx <= maxW ==> r.0 == origW + dx)
      && (80 <= origH + dy <= maxH ==> r.1 == origH + dy)
      && (r.0 == origW + dx || r.0 == 140 || r.0 == maxW)
      && (r.1 == origH + dy || r.1 == 80 || r.1 == maxH)
      && (origW + dx > maxW || maxW < 140 ==> r.0 == maxW)
      && (origH + dy > maxH || maxH < 80 ==> r.1 == maxH)
      && (origW + dx < 140 <= maxW ==> r.0 == 140)
      && (origH + dy < 80 <= maxH ==> r.1 == 80)
  {
    var w := Max(140, origW + dx);
    var h := Max(80, origH + dy);
    (Min(w, vw - OrZero(left) - 12), Min(h, vh - OrZero(top) - 12))
  }

  /** Dragging the handle further never makes the panel smaller. */
  lemma PanelSizeMonotone(origW: int, origH: int, dx: int, dy: int, dx': int, dy': int,
                          left: Option<int>, top: Option<int>, vw: int, vh: int)
    requires dx <= dx' && dy <= dy'
    ensures PanelSize(origW, origH, dx, dy, left, top, vw, vh).0 <= PanelSize(origW, origH, dx', dy', left, top, vw, vh).0
    ensures PanelSize(origW, origH, dx, dy, left, top, vw, vh).1 <= PanelSize(origW, origH, dx', dy', left, top, vw, vh).1
  {
  }

  /** `getMaxZ()`: the largest parsed z-index of the panels, and at least 10. */
  method MaxZ(zs: seq<Option<int>>) returns (max: int)
    ensures max >= 10
    ensures forall i :: 0 <= i < |zs| ==> OrZero(zs[i]) <= max
    ensures max == 10 || exists i :: 0 <= i < |zs| && OrZero(zs[i]) == max
  {
    max := 10;
    var k := 0;
    while k < |zs|
      invariant 0 <= k <= |zs|
      invariant max >= 10
      invariant forall i :: 0 <= i < k ==> OrZero(zs[i]) <= max
      invariant max == 10 || exists i :: 0 <= i < k && OrZero(zs[i]) == max
    {
      var z := OrZero(zs[k]);
      if z > max {
        max := z;
      }
      k := k + 1;
    }
  }
}
