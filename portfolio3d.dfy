/** The `Portfolio3D` page of src/components/Portfolio3D.tsx: six rooms,
    a robot that walks to the room the visitor picks, a modal with that
    room's content, and a loading overlay while the robot walks.

    The page's React state (`selectedRoom`, `robotPosition`,
    `isRobotMoving`, `showRoomContent`) are the fields of class
    `Portfolio3D`. The 1 s timeouts its handlers start are a queue field:
    they all have the same delay, so they fire in the order they were
    started, and a timeout firing is a method call. */
module Portfolio3DComponent {
  import opened Base

  /** One entry of `rooms`; the icon, description and colour only
      decorate the page and are not modelled. */
  datatype Room = Room(id: string, name: string, position: Position)

  const Rooms: seq<Room> := [
    Room("main-server-core", "Main Server Core", Position(50, 20)),
    Room("code-laboratory", "Code Laboratory", Position(80, 35)),
    Room("database-room", "Database Room", Position(80, 65)),
    Room("project-warehouse", "Project Warehouse", Position(50, 80)),
    Room("communication-hub", "Communication Hub", Position(20, 65)),
    Room("system-status", "System Status", Position(20, 35))]

  const Home := Position(50, 50)

  /** The room components `renderRoomContent` can return. */
  datatype RoomView =
    | MainServerCoreView | CodeLaboratoryView | DatabaseRoomView
    | ProjectWarehouseView | CommunicationHubView | SystemStatusView

  /** The component for each room, in the order of `Rooms`. */
  const Views: seq<RoomView> := [
    MainServerCoreView, CodeLaboratoryView, DatabaseRoomView,
    ProjectWarehouseView, CommunicationHubView, SystemStatusView]

  /** `Array.prototype.find` over rooms by id, giving the index of the
      first match. */
  function Find(rooms: seq<Room>, id: string): (r: Option<nat>)
    ensures r.Some? ==> r.value < |rooms| && rooms[r.value].id == id
    ensures r.Some? ==> forall k :: 0 <= k < r.value ==> rooms[k].id != id
    ensures r.None? ==> forall k :: 0 <= k < |rooms| ==> rooms[k].id != id
  {
    if rooms == [] then None
    else if rooms[0].id == id then Some(0)
    else match Find(rooms[1..], id) {
      case None => None
      case Some(k) => Some(k + 1)
    }
  }

  /** No two rooms share an id. */
  lemma RoomIdsDistinct()
    ensures forall i, j :: 0 <= i < j < |Rooms| ==> Rooms[i].id != Rooms[j].id
  {
    forall i, j | 0 <= i < j < |Rooms|
      ensures Rooms[i].id != Rooms[j].id
    {
      // Every pair differs in its length or in its first letter.
      assert |Rooms[i].id| != |Rooms[j].id| || Rooms[i].id[0] != Rooms[j].id[0];
    }
  }

  /** Looking a room up by its own id finds that room. */
  lemma FindsEveryRoom(i: nat)
    requires i < |Rooms|
    ensures Find(Rooms, Rooms[i].id) == Some(i)
  {
    RoomIdsDistinct();
  }

  /** The room an id names, if any. */
  function RoomNamed(id: string): (r: Option<Room>)
    ensures r.Some? <==> exists k :: 0 <= k < |Rooms| && Rooms[k].id == id
    ensures r.Some? ==> r.value in Rooms && r.value.id == id
  {
    match Find(Rooms, id) {
      case None => None
      case Some(k) => Some(Rooms[k])
    }
  }

  /** `renderRoomContent`: no component without a selection or for an
      unknown id, otherwise the component of the selected room. */
  function RenderRoomContent(selected: Option<string>): (v: Option<RoomView>)
    ensures v.Some? <==> selected.Some? && Find(Rooms, selected.value).Some?
    ensures v.Some? ==> v.value == Views[Find(Rooms, selected.value).value]
  {
    if selected.None? then None
    else
      var id := selected.value;
      FindsEveryRoom(0); FindsEveryRoom(1); FindsEveryRoom(2);
      FindsEveryRoom(3); FindsEveryRoom(4); FindsEveryRoom(5);
      if id == "main-server-core" then Some(MainServerCoreView)
      else if id == "code-laboratory" then Some(CodeLaboratoryView)
      else if id == "database-room" then Some(DatabaseRoomView)
      else if id == "project-warehouse" then Some(ProjectWarehouseView)
      else if id == "communication-hub" then Some(CommunicationHubView)
      else if id == "system-status" then Some(SystemStatusView)
      else None
  }

  /** A pending 1 s timeout: arrive at a room, or arrive home. */
  datatype Timeout = MoveTo(position: Position) | MoveHome

  /** The modal: its title (the selected room's name) and its content. */
  datatype Modal = Modal(title: Option<string>, content: Option<RoomView>)

  /** What is drawn over the 3D scene. */
  datatype Overlays = Overlays(modal: Option<Modal>, loading: bool)

  class Portfolio3D {
    var selectedRoom: Option<string>
    var robotPosition: Position
    var isRobotMoving: bool
    var showRoomContent: bool
    /** Pending timeouts, in firing order. */
    var timers: seq<Timeout>

    /** The state the page keeps while the loading overlay, which covers
        the whole page during a walk, lets no click through: the
        selection is a known room, at most one walk is pending and the
        robot is moving exactly while it is, a pending walk goes to the
        selected room, and an open modal at rest stands at its room. */
    ghost predicate Valid()
      reads this
    {
      && (selectedRoom.Some? ==> RoomNamed(selectedRoom.value).Some?)
      && |timers| <= 1
      && (isRobotMoving <==> timers != [])
      && (showRoomContent ==> selectedRoom.Some?)
      && (showRoomContent && !isRobotMoving ==>
            robotPosition == RoomNamed(selectedRoom.value).value.position)
      && (timers != [] && timers[0].MoveTo? ==>
            selectedRoom.Some? && timers[0].position == RoomNamed(selectedRoom.value).value.position)
      && (timers != [] && timers[0].MoveHome? ==> selectedRoom.None? && !showRoomContent)
    }

    constructor ()
      ensures selectedRoom == None && robotPosition == Home
      ensures !isRobotMoving && !showRoomContent && timers == []
      ensures Valid()
    {
      selectedRoom := None;
      robotPosition := Home;
      isRobotMoving := false;
      showRoomContent := false;
      timers := [];
    }

    /** `handleRoomClick`: an unknown id changes nothing; a known one
        starts the walk and selects the room at once, and queues the
        arrival at the room's position. */
    method HandleRoomClick(roomId: string)
      modifies this
      ensures RoomNamed(roomId).None? ==> unchanged(this)
      ensures RoomNamed(roomId).Some? ==>
                && isRobotMoving && selectedRoom == Some(roomId)
                && timers == old(timers) + [MoveTo(RoomNamed(roomId).value.position)]
                && robotPosition == old(robotPosition) && showRoomContent == old(showRoomContent)
      ensures old(Valid()) && !old(isRobotMoving) ==> Valid()
    {
      var found := Find(Rooms, roomId);
      if found.None? {
        return;
      }
      var room := Rooms[found.value];
      isRobotMoving := true;
      selectedRoom := Some(roomId);
      timers := timers + [MoveTo(room.position)];
    }

    /** `handleNavigateToRoom`, the callback the main server core's
        component receives: it is `handleRoomClick`, guard included. */
    method NavigateToRoom(roomId: string)
      requires RenderRoomContent(selectedRoom) == Some(MainServerCoreView)
      modifies this
      ensures RoomNamed(roomId).None? ==> unchanged(this)
      ensures RoomNamed(roomId).Some? ==>
                && isRobotMoving && selectedRoom == Some(roomId)
                && timers == old(timers) + [MoveTo(RoomNamed(roomId).value.position)]
                && robotPosition == old(robotPosition) && showRoomContent == old(showRoomContent)
      ensures old(Valid()) && !old(isRobotMoving) ==> Valid()
    {
      HandleRoomClick(roomId);
    }

    /** `handleReturnHome`: the walk starts, the modal closes and the
        selection clears at once; the arrival home is queued. */
    method HandleReturnHome()
      modifies this
      ensures isRobotMoving && !showRoomContent && selectedRoom == None
      ensures timers == old(timers) + [MoveHome] && robotPosition == old(robotPosition)
      ensures old(Valid()) && !old(isRobotMoving) ==> Valid()
    {
      isRobotMoving := true;
      showRoomContent := false;
      selectedRoom := None;
      timers := timers + [MoveHome];
    }

    /** The oldest 1 s timeout fires. A walk to a room ends there with the
        room's content shown; a walk home ends at (50, 50). */
    method TimerFires()
      requires Valid() && timers != []
      modifies this
      ensures timers == old(timers[1..]) && !isRobotMoving
      ensures selectedRoom == old(selectedRoom)
      ensures old(timers[0]).MoveTo? ==>
                robotPosition == old(timers[0]).position && showRoomContent
      ensures old(timers[0]).MoveHome? ==>
                robotPosition == Home && showRoomContent == old(showRoomContent)
      ensures Valid()
    {
      match timers[0] {
        case MoveTo(p) =>
          robotPosition := p;
          isRobotMoving := false;
          showRoomContent := true;
        case MoveHome =>
          robotPosition := Home;
          isRobotMoving := false;
      }
      timers := timers[1..];
    }

    /** The modal and the loading overlay: the overlay is up exactly while
        the robot moves, and an open modal shows the selected room's name
        and component. */
    function Shown(): (o: Overlays)
      requires Valid()
      reads this
      ensures o.loading <==> isRobotMoving
      ensures o.modal.Some? <==> showRoomContent
      ensures o.modal.Some? ==>
                && o.modal.value.title == Some(RoomNamed(selectedRoom.value).value.name)
                && o.modal.value.content.Some?
                && o.modal.value.content == RenderRoomContent(selectedRoom)
    {
      var modal :=
        if showRoomContent
        then Some(Modal(match RoomNamed(selectedRoom.value) {
                          case None => None
                          case Some(room) => Some(room.name)
                        },
                        RenderRoomContent(selectedRoom)))
        else None;
      Overlays(modal, isRobotMoving)
    }
  }
}
