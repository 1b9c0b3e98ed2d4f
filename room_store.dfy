/** The room catalog (server/stores/room.store.js): one JSON array of rooms
    under the key `app:rooms`, created from three default rooms the first
    time it is read. */
module RoomStore {

  datatype Room = Room(id: string, name: string, icon: string, users: int)

  /** What `r.get(ROOMS_KEY)` finds: nothing, text that does not parse, or a
      stored array. */
  datatype Stored = Absent | Corrupt | Saved(rooms: seq<Room>)

  /** The result of a catalog operation: the list it returns and the stored
      value it leaves behind. */
  datatype Outcome = Outcome(rooms: seq<Room>, stored: Stored)

  /** `defaultRooms`. */
  function Defaults(): seq<Room> {
    [Room("general", "General", "💬", 0), Room("gaming", "Gaming", "🎮", 0), Room("music", "Music", "🎵", 0)]
  }

  /** No two rooms share an id. */
  ghost predicate UniqueIds(rooms: seq<Room>) {
    forall i, j :: 0 <= i < j < |rooms| ==> rooms[i].id != rooms[j].id
  }

  /** The stored catalog, when there is one, has unique ids. */
  ghost predicate Valid(st: Stored) {
    st.Saved? ==> UniqueIds(st.rooms)
  }

  /** `rooms.some(r => r.id === id)`. */
  predicate HasId(rooms: seq<Room>, id: string) {
    exists i :: 0 <= i < |rooms| && rooms[i].id == id
  }

  /** The index `rooms.find(r => r.id === id)` lands on, or -1. */
  function FindIndex(rooms: seq<Room>, id: string): (i: int)
    ensures -1 <= i < |rooms|
    ensures i < 0 <==> !HasId(rooms, id)
    ensures 0 <= i ==> rooms[i].id == id && forall j :: 0 <= j < i ==> rooms[j].id != id
  {
    if rooms == [] then -1
    else if rooms[0].id == id then 0
    else
      var j := FindIndex(rooms[1..], id);
      assert forall k :: 1 <= k < |rooms| ==> rooms[k] == rooms[1..][k - 1];
      if j < 0 then -1 else j + 1
  }

  /** `rooms.filter(r => r.id !== id)`. */
  function Without(rooms: seq<Room>, id: string): (r: seq<Room>)
    ensures |r| <= |rooms|
  {
    if rooms == [] then []
    else if rooms[0].id == id then Without(rooms[1..], id)
    else [rooms[0]] + Without(rooms[1..], id)
  }

  /** `getAllRooms()`: the parsed catalog; the defaults, written back, when
      the key is missing; the defaults, not written, when parsing fails. */
  function GetAll(st: Stored): (o: Outcome)
    ensures st.Absent? ==> o.stored == Saved(o.rooms)
    ensures !st.Absent? ==> o.stored == st
    ensures st.Saved? ==> o.rooms == st.rooms
    ensures !st.Saved? ==> o.rooms == Defaults()
  {
    match st
    case Absent => Outcome(Defaults(), Saved(Defaults()))
    case Corrupt => Outcome(Defaults(), Corrupt)
    case Saved(rooms) => Outcome(rooms, st)
  }

  /** `addRoom(room)`. */
  function Added(st: Stored, room: Room): Outcome {
    var cur := GetAll(st);
    if HasId(cur.rooms, room.id) then cur
    else Outcome(cur.rooms + [room], Saved(cur.rooms + [room]))
  }

  /** `updateUsers(roomId, count)`. */
  function Updated(st: Stored, roomId: string, count: int): Outcome {
    var cur := GetAll(st);
    var i := FindIndex(cur.rooms, roomId);
    if i < 0 then cur
    else
      var rooms := cur.rooms[i := cur.rooms[i].(users := count)];
      Outcome(rooms, Saved(rooms))
  }

  /** `removeRoom(roomId)`. */
  function Removed(st: Stored, roomId: string): Outcome {
    var filtered := Without(GetAll(st).rooms, roomId);
    Outcome(filtered, Saved(filtered))
  }

  lemma DefaultsUnique()
    ensures UniqueIds(Defaults())
  {
    var d := Defaults();
    assert d[0].id[1] == 'e' && d[1].id[1] == 'a' && d[2].id[0] == 'm';
  }

  /** Every read sees a catalog with unique ids when the store had one. */
  lemma GetAllValid(st: Stored)
    requires Valid(st)
    ensures UniqueIds(GetAll(st).rooms) && Valid(GetAll(st).stored)
  {
    DefaultsUnique();
  }

  /** An id already present: the catalog is returned as read and
      `addRoom` itself writes nothing (only a first read may have stored
      the defaults). */
  lemma AddRoomDuplicate(st: Stored, room: Room)
    requires HasId(GetAll(st).rooms, room.id)
    ensures Added(st, room) == GetAll(st)
  {
  }

  /** A fresh id is appended at the end, every earlier room is kept in
      place, the new list is stored, and ids stay unique. */
  lemma AddRoomFresh(st: Stored, room: Room)
    requires Valid(st)
    requires !HasId(GetAll(st).rooms, room.id)
    ensures var o := Added(st, room);
      && o.rooms == GetAll(st).rooms + [room] && o.stored == Saved(o.rooms)
      && UniqueIds(o.rooms)
  {
    GetAllValid(st);
  }

  /** `addRoom` always returns a catalog with unique ids and keeps the store valid. */
  lemma AddRoomValid(st: Stored, room: Room)
    requires Valid(st)
    ensures UniqueIds(Added(st, room).rooms) && Valid(Added(st, room).stored)
  {
    GetAllValid(st);
    if !HasId(GetAll(st).rooms, room.id) {
      AddRoomFresh(st, room);
    }
  }

  /** `updateUsers` changes the `users` of the first room with the id and
      nothing else; without a match it writes nothing of its own. */
  lemma UpdateUsersTargeted(st: Stored, roomId: string, count: int)
    ensures var cur := GetAll(st).rooms;
      var o := Updated(st, roomId, count);
      var i := FindIndex(cur, roomId);
      && (i < 0 ==> o == GetAll(st))
      && (0 <= i ==>
           && |o.rooms| == |cur| && o.stored == Saved(o.rooms)
           && o.rooms[i] == cur[i].(users := count)
           && forall j :: 0 <= j < |cur| && j != i ==> o.rooms[j] == cur[j])
  {
  }

  /** `updateUsers` never changes an id, so ids stay unique. */
  lemma UpdateUsersValid(st: Stored, roomId: string, count: int)
    requires Valid(st)
    ensures UniqueIds(Updated(st, roomId, count).rooms) && Valid(Updated(st, roomId, count).stored)
  {
    GetAllValid(st);
    var cur := GetAll(st).rooms;
    var o := Updated(st, roomId, count);
    assert |o.rooms| == |cur| && forall j :: 0 <= j < |cur| ==> o.rooms[j].id == cur[j].id;
  }

  /** The filter keeps exactly the rooms with other ids. */
  lemma {:induction false} WithoutMember(rooms: seq<Room>, id: string, r: Room)
    ensures r in Without(rooms, id) <==> r in rooms && r.id != id
  {
    if rooms != [] {
      WithoutMember(rooms[1..], id, r);
      assert rooms == [rooms[0]] + rooms[1..];
    }
  }

  /** The filter keeps the order: filtering a concatenation filters each part. */
  lemma {:induction false} WithoutAppend(a: seq<Room>, b: seq<Room>, id: string)
    ensures Without(a + b, id) == Without(a, id) + Without(b, id)
  {
    if a != [] {
      assert (a + b)[1..] == a[1..] + b;
      WithoutAppend(a[1..], b, id);
    } else {
      assert a + b == b;
    }
  }

  /** Removing a room from a catalog with unique ids keeps them unique. */
  lemma {:induction false} WithoutUnique(rooms: seq<Room>, id: string)
    requires UniqueIds(rooms)
    ensures UniqueIds(Without(rooms, id))
  {
    if rooms != [] {
      var t := rooms[1..];
      assert UniqueIds(t) by {
        forall i, j | 0 <= i < j < |t| ensures t[i].id != t[j].id { assert t[i] == rooms[i + 1] && t[j] == rooms[j + 1]; }
      }
      WithoutUnique(t, id);
      if rooms[0].id != id {
        var w := Without(t, id);
        forall k | 0 <= k < |w| ensures w[k].id != rooms[0].id {
          WithoutMember(t, id, w[k]);
          var m :| 0 <= m < |t| && t[m] == w[k];
          assert t[m] == rooms[m + 1];
        }
        var r := [rooms[0]] + w;
        forall i, j | 0 <= i < j < |r| ensures r[i].id != r[j].id {
          if i > 0 { assert r[i] == w[i - 1] && r[j] == w[j - 1]; }
        }
      }
    }
  }

  /** `removeRoom` drops every room with the id, keeps the others, and
      always stores the result. */
  lemma RemoveRoomFilters(st: Stored, roomId: string, r: Room)
    ensures var o := Removed(st, roomId);
      && (r in o.rooms <==> r in GetAll(st).rooms && r.id != roomId)
      && o.stored == Saved(o.rooms)
  {
    WithoutMember(GetAll(st).rooms, roomId, r);
  }

  lemma RemoveRoomValid(st: Stored, roomId: string)
    requires Valid(st)
    ensures UniqueIds(Removed(st, roomId).rooms) && Valid(Removed(st, roomId).stored)
  {
    GetAllValid(st);
    WithoutUnique(GetAll(st).rooms, roomId);
  }

  /** A corrupt catalog always reads as the three defaults. */
  lemma CorruptReadsDefaults()
    ensures GetAll(Corrupt).rooms == Defaults() && |Defaults()| == 3
  {
  }

  /** The value at `app:rooms`. */
  class Store {
    var stored: Stored

    constructor ()
      ensures stored == Absent
    {
      stored := Absent;
    }

    /** `getAllRooms()`. */
    method GetAllRooms() returns (rooms: seq<Room>)
      modifies this
      ensures rooms == GetAll(old(stored)).rooms && stored == GetAll(old(stored)).stored
    {
      match stored
      case Absent =>
        stored := Saved(Defaults());
        rooms := Defaults();
      case Corrupt =>
        rooms := Defaults();
      case Saved(saved) =>
        rooms := saved;
    }

    /** `addRoom(room)`. */
    method AddRoom(room: Room) returns (rooms: seq<Room>)
      modifies this
      ensures Outcome(rooms, stored) == Added(old(stored), room)
      ensures Valid(old(stored)) ==> Valid(stored) && UniqueIds(rooms)
    {
      ghost var st := stored;
      rooms := GetAllRooms();
      if Valid(st) {
        AddRoomValid(st, room);
      }
      if HasId(rooms, room.id) {
        return;
      }
      rooms := rooms + [room];
      stored := Saved(rooms);
    }

    /** `updateUsers(roomId, count)`. */
    method UpdateUsers(roomId: string, count: int) returns (rooms: seq<Room>)
      modifies this
      ensures Outcome(rooms, stored) == Updated(old(stored), roomId, count)
      ensures Valid(old(stored)) ==> Valid(stored) && UniqueIds(rooms)
    {
      ghost var st := stored;
      rooms := GetAllRooms();
      var i := FindIndex(rooms, roomId);
      if i >= 0 {
        rooms := rooms[i := rooms[i].(users := count)];
        stored := Saved(rooms);
      }
      if Valid(st) {
        UpdateUsersValid(st, roomId, count);
      }
    }

    /** `removeRoom(roomId)`. */
    method RemoveRoom(roomId: string) returns (filtered: seq<Room>)
      modifies this
      ensures Outcome(filtered, stored) == Removed(old(stored), roomId)
      ensures Valid(old(stored)) ==> Valid(stored) && UniqueIds(filtered)
    {
      ghost var st := stored;
      var rooms := GetAllRooms();
      filtered := Without(rooms, roomId);
      stored := Saved(filtered);
      if Valid(st) {
        RemoveRoomValid(st, roomId);
      }
    }
  }

  /** The catalog as the source literally runs it: `getAllRooms` returns the
      module's own `defaultRooms` array on both fallback paths, so the
      `push` of `addRoom` and the `users` assignment of `updateUsers` change
      that array, and later fallbacks return the changed array. */
  datatype Process = Process(stored: Stored, defaultRooms: seq<Room>)

  /** `getAllRooms()` over a process whose `defaultRooms` may have been changed;
      the flag says whether the returned array is `defaultRooms` itself. */
  function GetAllAsWritten(p: Process): (r: (seq<Room>, Process, bool))
    ensures r.2 <==> !p.stored.Saved?
  {
    match p.stored
    case Absent => (p.defaultRooms, p.(stored := Saved(p.defaultRooms)), true)
    case Corrupt => (p.defaultRooms, p, true)
    case Saved(rooms) => (rooms, p, false)
  }

  /** `addRoom(room)` as written: the push lands in `defaultRooms` when the
      catalog array came from a fallback. */
  function AddRoomAsWritten(p: Process, room: Room): (r: (seq<Room>, Process))
  {
    var (rooms, p1, aliased) := GetAllAsWritten(p);
    if HasId(rooms, room.id) then (rooms, p1)
    else
      var pushed := rooms + [room];
      (pushed, Process(Saved(pushed), if aliased then pushed else p1.defaultRooms))
  }

  /** A room added while the key was missing becomes part of the defaults:
      once the stored text is later unreadable, the fallback returns four
      rooms instead of the three defaults. */
  lemma DefaultsAliasing()
    ensures var extra := Room("x", "X", "💬", 0);
      var (_, p1) := AddRoomAsWritten(Process(Absent, Defaults()), extra);
      var (rooms, _, _) := GetAllAsWritten(p1.(stored := Corrupt));
      rooms == Defaults() + [extra] && rooms != Defaults()
  {
    var extra := Room("x", "X", "💬", 0);
    assert !HasId(Defaults(), "x") by {
      var d := Defaults();
      assert d[0].id[0] == 'g' && d[1].id[0] == 'g' && d[2].id[0] == 'm';
    }
    var (rooms, _, _) := GetAllAsWritten(Process(Corrupt, Defaults() + [extra]));
    assert |rooms| == 4;
  }

  /** `addRoom(room)` with `getAllRooms` returning a copy of `defaultRooms`
      on its fallback paths: the push never reaches `defaultRooms`. */
  function AddRoomCopying(p: Process, room: Room): (r: (seq<Room>, Process))
  {
    var (rooms, p1, _) := GetAllAsWritten(p);
    if HasId(rooms, room.id) then (rooms, p1)
    else (rooms + [room], Process(Saved(rooms + [room]), p1.defaultRooms))
  }

  /** With copying, `defaultRooms` keeps the three defaults, and the result
      is the catalog model `Added` that the store class implements. */
  lemma AddRoomCopyingKeepsDefaults(p: Process, room: Room)
    requires p.defaultRooms == Defaults()
    ensures var (rooms, p1) := AddRoomCopying(p, room);
      && p1.defaultRooms == Defaults()
      && Outcome(rooms, p1.stored) == Added(p.stored, room)
      && GetAllAsWritten(p1.(stored := Corrupt)).0 == Defaults()
  {
  }
}
