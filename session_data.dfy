/** The "possible next sessions" selection of the conference step engine:
    from a day's schedule slots, the session each room shows next, ordered
    by start time and then by room. */
module ConferenceSessions {
  import opened Wrappers

  // ---------------------------------------------------------------------
  // Time
  // ---------------------------------------------------------------------

  /** An instant on the time line, in seconds since the epoch. */
  type Instant = int

  const SecondsPerMinute: int := 60
  const SecondsPerDay: int := 86400

  type SecondOfDay = s: int | 0 <= s < 86400

  /** A time of day together with its offset from UTC, without a date
      (java.time.OffsetTime, to second precision). */
  datatype OffsetTime = OffsetTime(secondOfDay: SecondOfDay, offsetSeconds: int)

  /** A time zone, reduced to the UTC offset its rules give each instant. */
  datatype ZoneId = ZoneId(offsetAt: Instant -> int)

  /** The position on one common time line that OffsetTime's comparisons
      use: the time of day shifted back to UTC (toEpochNano, in seconds). */
  function EpochSecondOfDay(t: OffsetTime): int
  {
    t.secondOfDay - t.offsetSeconds
  }

  predicate IsAfter(a: OffsetTime, b: OffsetTime)
  {
    EpochSecondOfDay(a) > EpochSecondOfDay(b)
  }

  predicate IsBefore(a: OffsetTime, b: OffsetTime)
  {
    EpochSecondOfDay(a) < EpochSecondOfDay(b)
  }

  /** OffsetTime.plusMinutes: moves the time of day, wrapping at midnight,
      and keeps the offset. */
  function PlusMinutes(t: OffsetTime, minutes: int): (r: OffsetTime)
    ensures r.offsetSeconds == t.offsetSeconds
    ensures (r.secondOfDay - t.secondOfDay - SecondsPerMinute * minutes) % SecondsPerDay == 0
    ensures 0 <= t.secondOfDay + SecondsPerMinute * minutes < SecondsPerDay ==>
              r.secondOfDay == t.secondOfDay + SecondsPerMinute * minutes
  {
    OffsetTime((t.secondOfDay + SecondsPerMinute * minutes) % SecondsPerDay, t.offsetSeconds)
  }

  /** OffsetTime.ofInstant: the local time of day of an instant in a zone,
      with the offset the zone has at that instant. */
  function OfInstant(instant: Instant, zone: ZoneId): (r: OffsetTime)
    ensures r.offsetSeconds == zone.offsetAt(instant)
    ensures (r.secondOfDay - instant - zone.offsetAt(instant)) % SecondsPerDay == 0
  {
    var offset := zone.offsetAt(instant);
    OffsetTime((instant + offset) % SecondsPerDay, offset)
  }

  // ---------------------------------------------------------------------
  // Schedule entities (the conference API)
  // ---------------------------------------------------------------------

  /** A room, identified and ordered by its key. */
  datatype Room = Room(id: int)

  datatype Speaker = Speaker(fullName: string)

  datatype Track = Track(avatarUrl: string)

  datatype Talk = Talk(
    name: string,
    speakers: seq<Speaker>,
    favoriteCount: Option<int>,
    track: Track,
    tags: seq<string>)

  datatype DateTimeRange = DateTimeRange(start: Instant, end: Instant)

  /** A slot of the schedule: a room and a time range, with a talk or
      without one (a break). */
  datatype ScheduleSlot = ScheduleSlot(
    room: Room,
    talk: Option<Talk>,
    dateTimeRange: DateTimeRange,
    favoriteCount: Option<int>)

  /** The record built for one selected slot. */
  datatype SessionData = SessionData(
    room: Room,
    speakers: seq<string>,
    title: string,
    beginTime: Instant,
    endTime: Instant,
    speakerObjects: seq<Speaker>,
    favouritesCount: int,
    trackImageUrl: string,
    tags: seq<string>)

  // ---------------------------------------------------------------------
  // The SessionData constructor
  // ---------------------------------------------------------------------

  /** An OptionalInt as a stream of zero or one elements. */
  function OptionalStream(o: Option<int>): (r: seq<int>)
  {
    if o.Some? then [o.value] else []
  }

  /** The stream filter `i -> i > 0`. */
  function Positives(s: seq<int>): (r: seq<int>)
    ensures forall x :: x in r ==> x > 0
    ensures forall x :: x in r <==> x in s && x > 0
  {
    if s == [] then []
    else (if s[0] > 0 then [s[0]] else []) + Positives(s[1..])
  }

  /** findFirst().orElse(d). */
  function FirstOrElse(s: seq<int>, d: int): int
  {
    if s == [] then d else s[0]
  }

  /** The favourites count: the first positive count among the slot's and
      then the talk's, or 0. */
  function FavouritesCount(slotCount: Option<int>, talkCount: Option<int>): (r: int)
    ensures r >= 0
  {
    var positives := Positives(OptionalStream(slotCount) + OptionalStream(talkCount));
    assert positives != [] ==> positives[0] in positives;
    FirstOrElse(positives, 0)
  }

  /** The decision rule the stream expression implements. */
  lemma FavouritesCountRule(slotCount: Option<int>, talkCount: Option<int>)
    ensures FavouritesCount(slotCount, talkCount) ==
      if slotCount.Some? && slotCount.value > 0 then slotCount.value
      else if talkCount.Some? && talkCount.value > 0 then talkCount.value
      else 0
  {
    var t := OptionalStream(talkCount);
    assert Positives(t) == (if talkCount.Some? && talkCount.value > 0 then [talkCount.value] else []) by {
      if talkCount.Some? {
        assert t[1..] == [];
      }
    }
    if slotCount.Some? {
      var s := [slotCount.value] + t;
      assert s[1..] == t;
    } else {
      assert OptionalStream(slotCount) + t == t;
    }
  }

  /** The full names of the speakers, in order. */
  function FullNames(speakers: seq<Speaker>): (r: seq<string>)
    ensures |r| == |speakers|
    ensures forall i :: 0 <= i < |speakers| ==> r[i] == speakers[i].fullName
  {
    seq(|speakers|, i requires 0 <= i < |speakers| => speakers[i].fullName)
  }

  /** The private constructor SessionData(slot). It is only called for slots
      that have a talk (the talk is read with Optional.get). */
  function NewSessionData(slot: ScheduleSlot): (r: SessionData)
    requires slot.talk.Some?
    ensures r.room == slot.room
    ensures r.title == slot.talk.value.name
    ensures r.beginTime == slot.dateTimeRange.start && r.endTime == slot.dateTimeRange.end
    ensures r.speakerObjects == slot.talk.value.speakers
    ensures |r.speakers| == |r.speakerObjects|
    ensures forall i :: 0 <= i < |r.speakers| ==> r.speakers[i] == r.speakerObjects[i].fullName
    ensures r.favouritesCount >= 0
    ensures r.favouritesCount == FavouritesCount(slot.favoriteCount, slot.talk.value.favoriteCount)
    ensures r.trackImageUrl == slot.talk.value.track.avatarUrl && r.tags == slot.talk.value.tags
  {
    var talk := slot.talk.value;
    SessionData(
      slot.room,
      FullNames(talk.speakers),
      talk.name,
      slot.dateTimeRange.start,
      slot.dateTimeRange.end,
      talk.speakers,
      FavouritesCount(slot.favoriteCount, talk.favoriteCount),
      talk.track.avatarUrl,
      talk.tags)
  }

  // ---------------------------------------------------------------------
  // The comparator COMP: by begin time, then by room
  // ---------------------------------------------------------------------

  function CompareInstants(a: Instant, b: Instant): int
  {
    if a < b then -1 else if a > b then 1 else 0
  }

  function CompareRooms(a: Room, b: Room): int
  {
    if a.id < b.id then -1 else if a.id > b.id then 1 else 0
  }

  /** Comparator.comparing(getBeginTime).thenComparing(getRoom): negative,
      zero or positive as `a` orders before, with or after `b`. */
  function Compare(a: SessionData, b: SessionData): (c: int)
    ensures c < 0 <==> a.beginTime < b.beginTime || (a.beginTime == b.beginTime && a.room.id < b.room.id)
    ensures c == 0 <==> a.beginTime == b.beginTime && a.room == b.room
    ensures c > 0 <==> b.beginTime < a.beginTime || (a.beginTime == b.beginTime && b.room.id < a.room.id)
  {
    var byBegin := CompareInstants(a.beginTime, b.beginTime);
    if byBegin != 0 then byBegin else CompareRooms(a.room, b.room)
  }

  predicate Sorted(s: seq<SessionData>)
  {
    forall i, j :: 0 <= i < j < |s| ==> Compare(s[i], s[j]) <= 0
  }

  predicate StrictlySorted(s: seq<SessionData>)
  {
    forall i, j :: 0 <= i < j < |s| ==> Compare(s[i], s[j]) < 0
  }

  predicate SessionRoomsDistinct(s: seq<SessionData>)
  {
    forall i, j :: 0 <= i < j < |s| ==> s[i].room != s[j].room
  }

  /** Inserts `x` into a sorted sequence. */
  function Insert(x: SessionData, s: seq<SessionData>): (r: seq<SessionData>)
    requires Sorted(s)
    ensures Sorted(r)
    ensures multiset(r) == multiset(s) + multiset{x}
  {
    if s == [] then [x]
    else if Compare(x, s[0]) <= 0 then [x] + s
    else
      assert s == [s[0]] + s[1..];
      var t := Insert(x, s[1..]);
      HeadOrdersFirst(s[0], x, s[1..], t);
      [s[0]] + t
  }

  lemma HeadOrdersFirst(h: SessionData, x: SessionData, rest: seq<SessionData>, t: seq<SessionData>)
    requires Sorted([h] + rest)
    requires Compare(h, x) < 0
    requires Sorted(t) && multiset(t) == multiset(rest) + multiset{x}
    ensures Sorted([h] + t)
  {
    forall j | 0 <= j < |t| ensures Compare(h, t[j]) <= 0 {
      assert t[j] in multiset(t);
      if t[j] != x {
        assert t[j] in rest;
        var k :| 0 <= k < |rest| && rest[k] == t[j];
        assert ([h] + rest)[0] == h && ([h] + rest)[k + 1] == t[j];
      }
    }
  }

  /** The stream's `sorted(COMP)`: an insertion sort. */
  function SortSessions(s: seq<SessionData>): (r: seq<SessionData>)
    ensures Sorted(r)
    ensures multiset(r) == multiset(s)
  {
    if s == [] then []
    else
      assert s == [s[0]] + s[1..];
      Insert(s[0], SortSessions(s[1..]))
  }

  // ---------------------------------------------------------------------
  // SessionData.from
  // ---------------------------------------------------------------------

  /** The three stream filters: the slot has a talk, it ends more than ten
      minutes after `now` and it starts before `now + startsWithinMinutes`,
      everything compared as times of day. */
  predicate Qualifies(slot: ScheduleSlot, now: OffsetTime, zone: ZoneId, startsWithinMinutes: int)
  {
    && slot.talk.Some?
    && IsAfter(OfInstant(slot.dateTimeRange.end, zone), PlusMinutes(now, 10))
    && IsBefore(OfInstant(slot.dateTimeRange.start, zone), PlusMinutes(now, startsWithinMinutes))
  }

  /** Adding whole days leaves the time of day unchanged. */
  lemma ModShift(x: int, days: int)
    ensures (x + days * SecondsPerDay) % SecondsPerDay == x % SecondsPerDay
  {
  }

  /** The filters drop the date: in a zone with a fixed offset, moving a
      slot by whole days does not change whether it qualifies. */
  lemma QualifiesIgnoresDate(slot: ScheduleSlot, now: OffsetTime, offset: int, startsWithinMinutes: int, days: int)
    ensures var zone := ZoneId(i => offset);
      var shift := days * SecondsPerDay;
      var moved := slot.(dateTimeRange := DateTimeRange(slot.dateTimeRange.start + shift, slot.dateTimeRange.end + shift));
      Qualifies(moved, now, zone, startsWithinMinutes) == Qualifies(slot, now, zone, startsWithinMinutes)
  {
    var zone := ZoneId(i => offset);
    var shift := days * SecondsPerDay;
    var start, end := slot.dateTimeRange.start, slot.dateTimeRange.end;
    ModShift(start + offset, days);
    ModShift(end + offset, days);
    assert start + shift + offset == (start + offset) + days * SecondsPerDay;
    assert end + shift + offset == (end + offset) + days * SecondsPerDay;
    assert OfInstant(start + shift, zone) == OfInstant(start, zone);
    assert OfInstant(end + shift, zone) == OfInstant(end, zone);
  }

  /** A stream filter over slots. */
  type SlotFilter = ScheduleSlot -> bool

  /** The three filters of from, as one predicate. */
  function Window(now: OffsetTime, zone: ZoneId, startsWithinMinutes: int): SlotFilter
  {
    slot => Qualifies(slot, now, zone, startsWithinMinutes)
  }

  /** Stream.filter: the slots `keep` accepts, in input order. */
  function Filter(slots: seq<ScheduleSlot>, keep: SlotFilter): (r: seq<ScheduleSlot>)
    ensures |r| <= |slots|
    ensures forall x :: x in r <==> x in slots && keep(x)
  {
    if slots == [] then []
    else
      var init, last := slots[..|slots| - 1], slots[|slots| - 1];
      assert slots == init + [last];
      var rest := Filter(init, keep);
      if keep(last) then rest + [last] else rest
  }

  /** The slots that pass the filters of from, in input order. */
  function Upcoming(slots: seq<ScheduleSlot>, now: OffsetTime, zone: ZoneId, startsWithinMinutes: int): (r: seq<ScheduleSlot>)
    ensures |r| <= |slots|
    ensures forall x :: x in r <==> x in slots && Qualifies(x, now, zone, startsWithinMinutes)
  {
    Filter(slots, Window(now, zone, startsWithinMinutes))
  }

  function RoomsOf(s: seq<ScheduleSlot>): set<Room>
  {
    set x | x in s :: x.room
  }

  predicate SlotRoomsDistinct(s: seq<ScheduleSlot>)
  {
    forall i, j :: 0 <= i < j < |s| ==> s[i].room != s[j].room
  }

  lemma RoomsOfAppend(s: seq<ScheduleSlot>, y: ScheduleSlot)
    ensures RoomsOf(s + [y]) == RoomsOf(s) + {y.room}
  {
    assert forall x :: x in s + [y] <==> x in s || x == y;
  }

  /** groupingBy(getRoom) followed by `getFirst` of each group: the first
      slot of every room, kept here in the order the rooms first occur. */
  function FirstPerRoom(s: seq<ScheduleSlot>): (r: seq<ScheduleSlot>)
    ensures |r| <= |s|
    ensures forall x :: x in r ==> x in s
    ensures SlotRoomsDistinct(r)
    ensures RoomsOf(r) == RoomsOf(s)
  {
    if s == [] then []
    else
      var init, last := s[..|s| - 1], s[|s| - 1];
      assert s == init + [last];
      RoomsOfAppend(init, last);
      var rest := FirstPerRoom(init);
      if last.room in RoomsOf(rest) then rest
      else
        RoomsOfAppend(rest, last);
        rest + [last]
  }

  /** One SessionData per kept slot, in order. */
  function NewSessions(kept: seq<ScheduleSlot>): (r: seq<SessionData>)
    requires forall x :: x in kept ==> x.talk.Some?
    ensures |r| == |kept|
    ensures forall i :: 0 <= i < |kept| ==> r[i] == NewSessionData(kept[i])
  {
    seq(|kept|, i requires 0 <= i < |kept| => NewSessionData(kept[i]))
  }

  /** The slots the grouping keeps. */
  function Kept(slots: seq<ScheduleSlot>, now: OffsetTime, zone: ZoneId, startsWithinMinutes: int): (r: seq<ScheduleSlot>)
    ensures forall x :: x in r ==> Qualifies(x, now, zone, startsWithinMinutes)
  {
    FirstPerRoom(Upcoming(slots, now, zone, startsWithinMinutes))
  }

  /** SessionData.from(slots, now, zoneId, startsWithinMinutes). */
  function From(slots: seq<ScheduleSlot>, now: OffsetTime, zone: ZoneId, startsWithinMinutes: int): (r: seq<SessionData>)
    ensures Sorted(r)
  {
    SortSessions(NewSessions(Kept(slots, now, zone, startsWithinMinutes)))
  }

  // ---------------------------------------------------------------------
  // Properties of SessionData.from
  // ---------------------------------------------------------------------

  /** Slot `i` passes `keep` and no earlier slot that passes is in its room. */
  ghost predicate FirstKept(slots: seq<ScheduleSlot>, i: int, keep: SlotFilter)
    requires 0 <= i < |slots|
  {
    && keep(slots[i])
    && forall j :: 0 <= j < i && keep(slots[j]) ==> slots[j].room != slots[i].room
  }

  lemma FirstKeptOfPrefix(slots: seq<ScheduleSlot>, keep: SlotFilter)
    requires slots != []
    ensures forall i :: 0 <= i < |slots| - 1 ==>
      FirstKept(slots, i, keep) == FirstKept(slots[..|slots| - 1], i, keep)
  {
    var init := slots[..|slots| - 1];
    forall i | 0 <= i < |slots| - 1
      ensures FirstKept(slots, i, keep) == FirstKept(init, i, keep)
    {
      assert forall j :: 0 <= j <= i ==> slots[j] == init[j];
    }
  }

  /** `x` is the first slot of its room that `keep` accepts. */
  ghost predicate IsFirstKept(slots: seq<ScheduleSlot>, x: ScheduleSlot, keep: SlotFilter)
  {
    exists i :: 0 <= i < |slots| && FirstKept(slots, i, keep) && x == slots[i]
  }

  lemma FirstKeptOfSnoc(slots: seq<ScheduleSlot>, keep: SlotFilter)
    requires slots != []
    ensures forall x :: IsFirstKept(slots, x, keep) <==>
      IsFirstKept(slots[..|slots| - 1], x, keep) || (FirstKept(slots, |slots| - 1, keep) && x == slots[|slots| - 1])
  {
    FirstKeptOfPrefix(slots, keep);
  }

  /** Filtering and then keeping the first slot per room keeps exactly the
      first accepted slot of every room. */
  lemma {:induction false} FirstPerRoomOfFilter(slots: seq<ScheduleSlot>, keep: SlotFilter)
    ensures forall x :: x in FirstPerRoom(Filter(slots, keep)) <==> IsFirstKept(slots, x, keep)
  {
    if slots != [] {
      var n := |slots|;
      var init, last := slots[..n - 1], slots[n - 1];
      assert slots == init + [last];
      FirstPerRoomOfFilter(init, keep);
      FirstKeptOfSnoc(slots, keep);
      var u := Filter(init, keep);
      var before := FirstPerRoom(u);
      var after := FirstPerRoom(Filter(slots, keep));
      if keep(last) {
        assert Filter(slots, keep) == u + [last];
        assert (u + [last])[..|u|] == u;
        if last.room in RoomsOf(before) {
          assert after == before;
          var y :| y in u && y.room == last.room;
          var j :| 0 <= j < n - 1 && init[j] == y;
          assert slots[j] == y;
          assert !FirstKept(slots, n - 1, keep);
        } else {
          assert after == before + [last];
          forall j | 0 <= j < n - 1 && keep(slots[j])
            ensures slots[j].room != last.room
          {
            assert slots[j] == init[j];
            assert slots[j] in u;
          }
          assert FirstKept(slots, n - 1, keep);
        }
      } else {
        assert Filter(slots, keep) == u;
        assert !FirstKept(slots, n - 1, keep);
      }
    }
  }

  /** Slot `i` qualifies and no earlier qualifying slot is in its room. */
  ghost predicate FirstQualifying(slots: seq<ScheduleSlot>, i: int, now: OffsetTime, zone: ZoneId, startsWithinMinutes: int)
    requires 0 <= i < |slots|
  {
    FirstKept(slots, i, Window(now, zone, startsWithinMinutes))
  }

  /** The grouping keeps exactly the first qualifying slot of every room. */
  lemma KeptSlots(slots: seq<ScheduleSlot>, now: OffsetTime, zone: ZoneId, startsWithinMinutes: int)
    ensures forall x :: x in Kept(slots, now, zone, startsWithinMinutes) <==>
      exists i :: 0 <= i < |slots| && FirstQualifying(slots, i, now, zone, startsWithinMinutes) && x == slots[i]
  {
    FirstPerRoomOfFilter(slots, Window(now, zone, startsWithinMinutes));
  }

  /** Every returned session is the record of the first qualifying slot of
      its room, and every such slot's record is returned. In particular
      each one comes from a slot with a talk. */
  lemma FromSelectsFirstQualifyingSlotPerRoom(slots: seq<ScheduleSlot>, now: OffsetTime, zone: ZoneId, startsWithinMinutes: int)
    ensures forall x :: x in From(slots, now, zone, startsWithinMinutes) <==>
      exists i :: 0 <= i < |slots| && FirstQualifying(slots, i, now, zone, startsWithinMinutes)
                  && x == NewSessionData(slots[i])
  {
    var kept := Kept(slots, now, zone, startsWithinMinutes);
    var built := NewSessions(kept);
    var r := From(slots, now, zone, startsWithinMinutes);
    KeptSlots(slots, now, zone, startsWithinMinutes);
    forall x ensures x in r <==> x in built {
      assert x in r <==> x in multiset(r);
      assert x in built <==> x in multiset(built);
    }
    forall x | x in built
      ensures exists i :: 0 <= i < |slots| && FirstQualifying(slots, i, now, zone, startsWithinMinutes)
                          && x == NewSessionData(slots[i])
    {
      var k :| 0 <= k < |built| && built[k] == x;
      assert kept[k] in kept;
    }
    forall i | 0 <= i < |slots| && FirstQualifying(slots, i, now, zone, startsWithinMinutes)
      ensures NewSessionData(slots[i]) in built
    {
      assert slots[i] in kept;
      var k :| 0 <= k < |kept| && kept[k] == slots[i];
      assert built[k] == NewSessionData(slots[i]);
    }
  }

  /** Every returned session ends more than ten minutes after `now` and
      starts before `now + startsWithinMinutes`, as times of day. */
  lemma FromWithinWindow(slots: seq<ScheduleSlot>, now: OffsetTime, zone: ZoneId, startsWithinMinutes: int)
    ensures forall x :: x in From(slots, now, zone, startsWithinMinutes) ==>
      && IsAfter(OfInstant(x.endTime, zone), PlusMinutes(now, 10))
      && IsBefore(OfInstant(x.beginTime, zone), PlusMinutes(now, startsWithinMinutes))
  {
    FromSelectsFirstQualifyingSlotPerRoom(slots, now, zone, startsWithinMinutes);
  }

  lemma ConsRoomsDistinct(h: SessionData, t: seq<SessionData>)
    requires SessionRoomsDistinct(t)
    requires forall y :: y in t ==> y.room != h.room
    ensures SessionRoomsDistinct([h] + t)
  {
    forall i, j | 0 <= i < j < |[h] + t| ensures ([h] + t)[i].room != ([h] + t)[j].room {
      if i == 0 {
        assert ([h] + t)[j] == t[j - 1];
      } else {
        assert ([h] + t)[i] == t[i - 1] && ([h] + t)[j] == t[j - 1];
      }
    }
  }

  lemma {:induction false} InsertKeepsRoomsDistinct(x: SessionData, s: seq<SessionData>)
    requires Sorted(s) && SessionRoomsDistinct(s)
    requires forall y :: y in s ==> y.room != x.room
    ensures SessionRoomsDistinct(Insert(x, s))
  {
    if s == [] {
      assert Insert(x, s) == [x];
    } else if Compare(x, s[0]) <= 0 {
      assert Insert(x, s) == [x] + s;
      ConsRoomsDistinct(x, s);
    } else {
      var h, rest := s[0], s[1..];
      assert s == [h] + rest;
      var t := Insert(x, rest);
      assert Insert(x, s) == [h] + t;
      assert SessionRoomsDistinct(rest) by {
        forall i, j | 0 <= i < j < |rest| ensures rest[i].room != rest[j].room {
          assert rest[i] == s[i + 1] && rest[j] == s[j + 1];
        }
      }
      InsertKeepsRoomsDistinct(x, rest);
      forall y | y in t ensures y.room != h.room {
        assert y in multiset(t);
        if y != x {
          var k :| 0 <= k < |rest| && rest[k] == y;
          assert s[k + 1] == y;
        }
      }
      ConsRoomsDistinct(h, t);
    }
  }

  lemma {:induction false} SortKeepsRoomsDistinct(s: seq<SessionData>)
    requires SessionRoomsDistinct(s)
    ensures SessionRoomsDistinct(SortSessions(s))
  {
    if s != [] {
      assert s == [s[0]] + s[1..];
      SortKeepsRoomsDistinct(s[1..]);
      var t := SortSessions(s[1..]);
      forall y | y in t ensures y.room != s[0].room {
        assert y in multiset(t);
        var k :| 0 <= k < |s[1..]| && s[1..][k] == y;
        assert s[k + 1] == y;
      }
      InsertKeepsRoomsDistinct(s[0], t);
    }
  }

  /** No room appears twice, so the result is strictly ordered by
      (begin time, room). */
  lemma FromRoomsDistinctAndStrictlySorted(slots: seq<ScheduleSlot>, now: OffsetTime, zone: ZoneId, startsWithinMinutes: int)
    ensures SessionRoomsDistinct(From(slots, now, zone, startsWithinMinutes))
    ensures StrictlySorted(From(slots, now, zone, startsWithinMinutes))
  {
    var kept := Kept(slots, now, zone, startsWithinMinutes);
    var built := NewSessions(kept);
    assert SessionRoomsDistinct(built);
    SortKeepsRoomsDistinct(built);
  }

  lemma SortedWithSameElementsHaveSameHead(a: seq<SessionData>, b: seq<SessionData>)
    requires a != [] && b != []
    requires StrictlySorted(a) && Sorted(b)
    requires multiset(a) == multiset(b)
    ensures a[0] == b[0]
  {
    assert b[0] in multiset(a) && a[0] in multiset(b);
  }

  lemma {:induction false} SortedWithSameElementsAreEqual(a: seq<SessionData>, b: seq<SessionData>)
    requires StrictlySorted(a) && Sorted(b)
    requires multiset(a) == multiset(b)
    ensures a == b
  {
    assert |a| == |multiset(a)| == |multiset(b)| == |b|;
    if a != [] {
      SortedWithSameElementsHaveSameHead(a, b);
      assert a == [a[0]] + a[1..] && b == [b[0]] + b[1..];
      assert multiset(a[1..]) == multiset(b[1..]) by {
        calc {
          multiset(a[1..]);
          multiset(a) - multiset{a[0]};
          multiset(b) - multiset{b[0]};
          multiset(b[1..]);
        }
      }
      TailStaysSorted(a, b);
      SortedWithSameElementsAreEqual(a[1..], b[1..]);
    }
  }

  lemma TailStaysSorted(a: seq<SessionData>, b: seq<SessionData>)
    requires StrictlySorted(a) && Sorted(b) && a != [] && b != []
    ensures StrictlySorted(a[1..]) && Sorted(b[1..])
  {
    forall i, j | 0 <= i < j < |a| - 1 ensures Compare(a[1..][i], a[1..][j]) < 0 {
      assert a[1..][i] == a[i + 1] && a[1..][j] == a[j + 1];
    }
    forall i, j | 0 <= i < j < |b| - 1 ensures Compare(b[1..][i], b[1..][j]) <= 0 {
      assert b[1..][i] == b[i + 1] && b[1..][j] == b[j + 1];
    }
  }

  /** The order in which the grouping map yields its entries is unspecified;
      it does not matter: sorting any arrangement of the selected records
      gives the same result. */
  lemma FromIndependentOfGroupOrder(slots: seq<ScheduleSlot>, now: OffsetTime, zone: ZoneId, startsWithinMinutes: int, arrangement: seq<SessionData>)
    requires multiset(arrangement) == multiset(NewSessions(Kept(slots, now, zone, startsWithinMinutes)))
    ensures SortSessions(arrangement) == From(slots, now, zone, startsWithinMinutes)
  {
    FromRoomsDistinctAndStrictlySorted(slots, now, zone, startsWithinMinutes);
    SortedWithSameElementsAreEqual(From(slots, now, zone, startsWithinMinutes), SortSessions(arrangement));
  }

  lemma SubsetCardinality<T>(a: set<T>, b: set<T>)
    requires a <= b
    ensures |a| <= |b|
  {
    if a != {} {
      var x :| x in a;
      SubsetCardinality(a - {x}, b - {x});
    }
  }

  lemma {:induction false} DistinctRoomsCardinality(s: seq<ScheduleSlot>)
    requires SlotRoomsDistinct(s)
    ensures |RoomsOf(s)| == |s|
  {
    if s != [] {
      var init, last := s[..|s| - 1], s[|s| - 1];
      assert s == init + [last];
      DistinctRoomsCardinality(init);
      RoomsOfAppend(init, last);
      assert last.room !in RoomsOf(init);
    }
  }

  /** One session per room that has a qualifying slot: no more sessions
      than slots, and no more than distinct rooms among the slots. */
  lemma FromSize(slots: seq<ScheduleSlot>, now: OffsetTime, zone: ZoneId, startsWithinMinutes: int)
    ensures |From(slots, now, zone, startsWithinMinutes)| == |RoomsOf(Upcoming(slots, now, zone, startsWithinMinutes))|
    ensures |From(slots, now, zone, startsWithinMinutes)| <= |slots|
    ensures |From(slots, now, zone, startsWithinMinutes)| <= |RoomsOf(slots)|
  {
    var up := Upcoming(slots, now, zone, startsWithinMinutes);
    var kept := Kept(slots, now, zone, startsWithinMinutes);
    var r := From(slots, now, zone, startsWithinMinutes);
    assert |r| == |multiset(r)| == |multiset(NewSessions(kept))| == |kept|;
    DistinctRoomsCardinality(kept);
    SubsetCardinality(RoomsOf(up), RoomsOf(slots));
  }

  /** Times of day wrap at midnight and the date is dropped: at 23:55 UTC a
      talk starting at 23:56 the same day is not selected with a 60-minute
      window, because 23:56 is not before 00:55. */
  lemma MidnightWrapDropsLateSlot(talk: Talk)
    ensures From([ScheduleSlot(Room(1), Some(talk), DateTimeRange(86160, 87960), None)],
                 OffsetTime(86100, 0), ZoneId(i => 0), 60) == []
  {
    var slot := ScheduleSlot(Room(1), Some(talk), DateTimeRange(86160, 87960), None);
    var now, zone := OffsetTime(86100, 0), ZoneId(i => 0);
    assert OfInstant(86160, zone) == OffsetTime(86160, 0);
    assert PlusMinutes(now, 60) == OffsetTime(3300, 0);
    assert !Qualifies(slot, now, zone, 60);
    assert [slot][..0] == [];
    assert Upcoming([slot], now, zone, 60) == [];
    assert Kept([slot], now, zone, 60) == [];
  }
}
