/** The room list page of the client (client/src/pages/RoomSelector.jsx):
    the rooms shown, the list the server pushes, and the validation of a
    new room's name before it is added and entered. */
module RoomSelector {
  import opened Common
  import opened Strings
  import opened RoomStore

  /** The longest room name accepted, in characters after trimming. */
  const MaxNameLength: nat := 30
  /** The icon the form starts with and is reset to. */
  const DefaultIcon: string := "💬"

  /** The room the page hands to `onRoomSelect(roomId, roomName)`. */
  datatype Selection = Selection(roomId: string, roomName: string)

  /** `name.toLowerCase().replace(/\s+/g, "-")`. */
  function Slug(name: string): (id: string)
    ensures NoSpace(id) && |id| <= |name|
  {
    ReplaceSpaceRuns(ToLower(name))
  }

  /** Why `createRoom` stops, or the room it adds. */
  datatype CreateOutcome = Blank | TooLong | Duplicate | Created(room: Room)

  /** The checks of `createRoom` on the typed name: blank, too long, an id
      already listed; otherwise the new room, with no users yet. */
  function CheckCreate(rooms: seq<Room>, typed: string, icon: string): (r: CreateOutcome)
    ensures r == Blank <==> AllSpace(typed)
    ensures r == TooLong <==> !AllSpace(typed) && |Trim(typed)| > MaxNameLength
    ensures r == Duplicate <==> !AllSpace(typed) && |Trim(typed)| <= MaxNameLength && HasId(rooms, Slug(Trim(typed)))
    ensures r.Created? ==> r.room == Room(Slug(Trim(typed)), Trim(typed), icon, 0) && !HasId(rooms, r.room.id)
    ensures r.Created? ==> 0 < |r.room.name| <= MaxNameLength
  {
    TrimEmptyIff(typed);
    var name := Trim(typed);
    if name == "" then Blank
    else if |name| > MaxNameLength then TooLong
    else
      var roomId := Slug(name);
      if HasId(rooms, roomId) then Duplicate
      else Created(Room(roomId, name, icon, 0))
  }

  /** Appending a created room keeps the ids of the list unique. */
  lemma CreatedKeepsIdsUnique(rooms: seq<Room>, typed: string, icon: string)
    requires UniqueIds(rooms)
    requires CheckCreate(rooms, typed, icon).Created?
    ensures UniqueIds(rooms + [CheckCreate(rooms, typed, icon).room])
  {
    var room := CheckCreate(rooms, typed, icon).room;
    var r := rooms + [room];
    forall i, j | 0 <= i < j < |r| ensures r[i].id != r[j].id {
      if j == |rooms| {
        assert r[i] == rooms[i];
      }
    }
  }

  /** Two words and a run of spaces give the two words joined by one `-`. */
  lemma SlugOfTwoWords()
    ensures Slug("study   hall") == "study-hall"
  {
    ToLowerUnchanged("study   hall");
    SpacesOfTwoWords();
  }

  lemma SpacesOfTwoWords()
    ensures ReplaceSpaceRuns("study   hall") == "study-hall"
  {
    var w, gap, rest := "study", "   ", "hall";
    assert w + gap + rest == "study   hall";
    WordsHaveNoSpace();
    ReplaceSpaceRunsNoSpace(rest);
    ReplaceSpaceRunsJoin(w, gap, rest);
    assert w + "-" + rest == "study-hall";
  }

  lemma WordsHaveNoSpace()
    ensures NoSpace("study") && AllSpace("   ") && NoSpace("hall")
  {
    assert !IsSpace('s') && !IsSpace('t') && !IsSpace('u') && !IsSpace('d') && !IsSpace('y');
    assert !IsSpace('h') && !IsSpace('a') && !IsSpace('l');
  }

  /** A name that slugs to a listed id is refused: "General" is taken by default. */
  lemma GeneralIsTaken()
    ensures CheckCreate(Defaults(), "General", DefaultIcon) == Duplicate
  {
    GeneralSlug();
    assert !IsSpace("General"[0]);
    assert HasId(Defaults(), "general") by {
      assert Defaults()[0].id == "general";
    }
  }

  lemma GeneralSlug()
    ensures Trim("General") == "General" && Slug("General") == "general"
  {
    GeneralTrim();
    GeneralLower();
    GeneralNoSpace();
  }

  lemma GeneralTrim()
    ensures Trim("General") == "General"
  {
    TrimUnchanged("General");
  }

  lemma GeneralLower()
    ensures ToLower("General") == "general"
  {
  }

  lemma GeneralNoSpace()
    ensures ReplaceSpaceRuns("general") == "general"
  {
    assert NoSpace("general");
    ReplaceSpaceRunsNoSpace("general");
  }

  /** The page's own log of what it sends. */
  datatype SelectorEmit = RoomsListRequest | RoomsCreate(room: Room)

  /** The state of the room list page. */
  class Page {
    var rooms: seq<Room>
    var newRoomName: string
    var selectedEmoji: string
    var showCreateRoom: bool
    var emits: seq<SelectorEmit>
    /** The last `onRoomSelect` call, if any. */
    var picked: Option<Selection>

    /** Mounting: the three default rooms, an empty form, and a request for the list. */
    constructor ()
      ensures rooms == Defaults() && newRoomName == "" && selectedEmoji == DefaultIcon && !showCreateRoom
      ensures emits == [RoomsListRequest] && picked == None
    {
      rooms := Defaults();
      newRoomName := "";
      selectedEmoji := DefaultIcon;
      showCreateRoom := false;
      emits := [RoomsListRequest];
      picked := None;
    }

    /** `rooms:list`: only an array replaces the rooms. */
    method OnRoomList(list: Option<seq<Room>>)
      modifies this`rooms
      ensures rooms == if list.Some? then list.value else old(rooms)
    {
      if list.Some? {
        rooms := list.value;
      }
    }

    /** `createRoom()`. */
    method CreateRoom()
      modifies this`rooms, this`newRoomName, this`selectedEmoji, this`showCreateRoom, this`emits, this`picked
      ensures var outcome := CheckCreate(old(rooms), old(newRoomName), old(selectedEmoji));
        if outcome.Created? then
          && rooms == old(rooms) + [outcome.room]
          && emits == old(emits) + [RoomsCreate(outcome.room)]
          && newRoomName == "" && selectedEmoji == DefaultIcon && !showCreateRoom
          && picked == Some(Selection(outcome.room.id, outcome.room.name))
        else
          && rooms == old(rooms) && emits == old(emits) && picked == old(picked)
          && newRoomName == old(newRoomName) && selectedEmoji == old(selectedEmoji) && showCreateRoom == old(showCreateRoom)
      ensures UniqueIds(old(rooms)) ==> UniqueIds(rooms)
    {
      var outcome := CheckCreate(rooms, newRoomName, selectedEmoji);
      if !outcome.Created? {
        return;
      }
      if UniqueIds(rooms) {
        CreatedKeepsIdsUnique(rooms, newRoomName, selectedEmoji);
      }
      var newRoom := outcome.room;
      rooms := rooms + [newRoom];
      emits := emits + [RoomsCreate(newRoom)];
      newRoomName := "";
      selectedEmoji := DefaultIcon;
      showCreateRoom := false;
      picked := Some(Selection(newRoom.id, newRoom.name));
    }

    /** `joinRoom(roomId, roomName)`. */
    method JoinRoom(roomId: string, roomName: string)
      modifies this`picked
      ensures picked == Some(Selection(roomId, roomName))
    {
      picked := Some(Selection(roomId, roomName));
    }
  }
}
