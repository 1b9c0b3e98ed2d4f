/** The page flow of the client (client/src/App.jsx): the name form, then
    the room list, then the room. */
module App {
  import opened Common
  import opened RoomSelector
  import VoiceRoom

  datatype Step = JoinStep | SelectRoomStep | InRoomStep

  datatype PageKind = JoinPage | SelectorPage | RoomPage

  /** The pages the component renders for a step: each is shown when its step is current. */
  function Shown(step: Step): (pages: set<PageKind>)
    ensures JoinPage in pages <==> step == JoinStep
    ensures SelectorPage in pages <==> step == SelectRoomStep
    ensures RoomPage in pages <==> step == InRoomStep
  {
    (if step == JoinStep then {JoinPage} else {})
    + (if step == SelectRoomStep then {SelectorPage} else {})
    + (if step == InRoomStep then {RoomPage} else {})
  }

  /** Exactly one page is shown for every step. */
  lemma OnePagePerStep(step: Step)
    ensures |Shown(step)| == 1
  {
    match step {
      case JoinStep => assert Shown(step) == {JoinPage};
      case SelectRoomStep => assert Shown(step) == {SelectorPage};
      case InRoomStep => assert Shown(step) == {RoomPage};
    }
  }

  /** The `roomId` and `roomName` the room page works with: `selectedRoom?.id`
      and `?.name`, where an undefined prop takes the page's default
      `"general"` / `"General"`. */
  function RoomProps(selectedRoom: Option<Selection>): (props: (string, string))
    ensures selectedRoom.Some? ==> props == (selectedRoom.value.roomId, selectedRoom.value.roomName)
    ensures selectedRoom.None? ==> props == ("general", "General")
  {
    match selectedRoom
    case None => ("general", "General")
    case Some(s) => (s.roomId, s.roomName)
  }

  class Flow {
    var step: Step
    var selectedRoom: Option<Selection>

    /** The room page is only shown with a selected room to pass it. */
    ghost predicate Valid()
      reads this
    {
      step == InRoomStep ==> selectedRoom.Some?
    }

    constructor ()
      ensures step == JoinStep && selectedRoom == None && Valid()
    {
      step := JoinStep;
      selectedRoom := None;
    }

    /** `handleJoin()`. */
    method HandleJoin()
      modifies this`step
      ensures step == SelectRoomStep && selectedRoom == old(selectedRoom) && Valid()
    {
      step := SelectRoomStep;
    }

    /** `handleRoomSelect(roomId, roomName)`. */
    method HandleRoomSelect(roomId: string, roomName: string)
      modifies this
      ensures selectedRoom == Some(Selection(roomId, roomName)) && step == InRoomStep && Valid()
      ensures RoomProps(selectedRoom) == (roomId, roomName)
    {
      selectedRoom := Some(Selection(roomId, roomName));
      step := InRoomStep;
    }

    /** `handleLeave()`. */
    method HandleLeave()
      modifies this
      ensures selectedRoom == None && step == SelectRoomStep && Valid()
    {
      selectedRoom := None;
      step := SelectRoomStep;
    }

    /** The room page's leave timer fires: the socket is closed and the
        page's `onLeave`, which is `handleLeave`, runs. */
    method OnLeaveTimer(page: VoiceRoom.RoomPage)
      requires page.pendingLeaves > 0
      modifies this, page`pendingLeaves, page`socketOpen, page`leaveCalls
      ensures page.pendingLeaves == old(page.pendingLeaves) - 1 && !page.socketOpen
      ensures page.leaveCalls == old(page.leaveCalls) + 1
      ensures selectedRoom == None && step == SelectRoomStep && Valid()
    {
      page.FireLeave();
      HandleLeave();
    }
  }

  /** Joining, entering a room and leaving it returns to the room list with nothing selected. */
  method JoinEnterLeave() returns (f: Flow)
    ensures f.step == SelectRoomStep && f.selectedRoom == None
  {
    f := new Flow();
    f.HandleJoin();
    f.HandleRoomSelect("general", "General");
    assert Shown(f.step) == {RoomPage};
    f.HandleLeave();
  }
}
