/**
 * The registry of rooms (class RoomManager of server/room-manager.js): rooms
 * keyed by an id `room_<n>` drawn from a counter that starts at 1 and only
 * grows. The source keeps a Map; its iteration order is insertion order, so
 * the model keeps the rooms as a sequence in that order.
 */
module Registry {
  import opened Util
  import opened Rooms

  // ---------------------------------------------------------------------
  // Room ids
  // ---------------------------------------------------------------------

  /** The character of one decimal digit. */
  function Digit(d: nat): (c: char)
    requires d < 10
    ensures c as int - '0' as int == d
  {
    ('0' as int + d) as char
  }

  /** A natural number in decimal, as a template literal prints it. */
  function NatToString(n: nat): (s: string)
    ensures |s| > 0
  {
    if n < 10 then [Digit(n)] else NatToString(n / 10) + [Digit(n % 10)]
  }

  /** The printed form holds digits only, with a leading zero exactly for zero itself. */
  lemma {:induction false} NatToStringDigits(n: nat)
    ensures forall i :: 0 <= i < |NatToString(n)| ==> '0' <= NatToString(n)[i] <= '9'
    ensures NatToString(n)[0] == '0' <==> n == 0
  {
    if n >= 10 {
      NatToStringDigits(n / 10);
      assert NatToString(n)[0] == NatToString(n / 10)[0];
    }
  }

  /** Reads a string of decimal digits back as a number. */
  function DigitsValue(s: string): int {
    if s == [] then 0 else DigitsValue(s[..|s| - 1]) * 10 + (s[|s| - 1] as int - '0' as int)
  }

  /** Printing a number and reading it back gives the number. */
  lemma {:induction false} DigitsRoundTrip(n: nat)
    ensures DigitsValue(NatToString(n)) == n
  {
    var s := NatToString(n);
    if n < 10 {
      assert s[..|s| - 1] == [];
    } else {
      DigitsRoundTrip(n / 10);
      assert s[..|s| - 1] == NatToString(n / 10);
    }
  }

  /** The id createRoom gives the room issued at counter value n. */
  function RoomId(n: nat): (id: string)
    ensures |id| > 5 && id[..5] == "room_"
  {
    "room_" + NatToString(n)
  }

  /** Different counter values give different ids. */
  lemma RoomIdInjective(m: nat, n: nat)
    ensures RoomId(m) == RoomId(n) <==> m == n
  {
    if RoomId(m) == RoomId(n) {
      assert RoomId(m)[5..] == NatToString(m);
      assert RoomId(n)[5..] == NatToString(n);
      DigitsRoundTrip(m);
      DigitsRoundTrip(n);
    }
  }

  // ---------------------------------------------------------------------
  // Searching the registry
  // ---------------------------------------------------------------------

  /** The registry's rooms carry the ids of counter values issued so far, in increasing order. */
  ghost predicate Numbered(rs: seq<Room>, ns: seq<nat>, counter: nat) {
    |ns| == |rs| &&
    (forall i :: 0 <= i < |rs| ==> rs[i].id == RoomId(ns[i]) && 1 <= ns[i] < counter) &&
    (forall i, j :: 0 <= i < j < |ns| ==> ns[i] < ns[j])
  }

  /** No two rooms of a numbered registry share an id. */
  lemma NumberedIdsDistinct(rs: seq<Room>, ns: seq<nat>, counter: nat)
    requires Numbered(rs, ns, counter)
    ensures forall i, j :: 0 <= i < j < |rs| ==> rs[i].id != rs[j].id
  {
    forall i, j | 0 <= i < j < |rs| ensures rs[i].id != rs[j].id {
      RoomIdInjective(ns[i], ns[j]);
    }
  }

  /** The id the counter is about to issue is held by no room yet. */
  lemma NextIdIsFresh(rs: seq<Room>, ns: seq<nat>, counter: nat)
    requires Numbered(rs, ns, counter)
    ensures forall i :: 0 <= i < |rs| ==> rs[i].id != RoomId(counter)
  {
    forall i | 0 <= i < |rs| ensures rs[i].id != RoomId(counter) {
      RoomIdInjective(ns[i], counter);
    }
  }

  /** `Map.get`: the position of the room with that id. */
  function FindRoom(rs: seq<Room>, id: string): (r: Option<nat>)
    ensures r.Some? ==> r.value < |rs| && rs[r.value].id == id && forall j :: 0 <= j < r.value ==> rs[j].id != id
    ensures r.None? ==> forall j :: 0 <= j < |rs| ==> rs[j].id != id
  {
    if rs == [] then None
    else if rs[0].id == id then Some(0)
    else match FindRoom(rs[1..], id)
      case None => None
      case Some(k) => Some(k + 1)
  }

  /** With distinct ids, looking up a room's own id finds that room. */
  lemma FindRoomFindsOwnId(rs: seq<Room>, k: nat)
    requires k < |rs| && forall i, j :: 0 <= i < j < |rs| ==> rs[i].id != rs[j].id
    ensures FindRoom(rs, rs[k].id) == Some(k)
  {
  }

  /** A room added under a fresh id is found at the end. */
  lemma FindRoomAppended(rs: seq<Room>, room: Room)
    requires forall i :: 0 <= i < |rs| ==> rs[i].id != room.id
    ensures FindRoom(rs + [room], room.id) == Some(|rs|)
  {
    assert (rs + [room])[|rs|].id == room.id;
  }

  /** Deleting position k keeps a registry numbered. */
  lemma SpliceNumbered(rs: seq<Room>, ns: seq<nat>, counter: nat, k: nat)
    requires Numbered(rs, ns, counter) && k < |rs|
    ensures Numbered(rs[..k] + rs[k + 1..], ns[..k] + ns[k + 1..], counter)
  {
    var rt, nt := rs[..k] + rs[k + 1..], ns[..k] + ns[k + 1..];
    forall i | 0 <= i < |rt| ensures rt[i].id == RoomId(nt[i]) && 1 <= nt[i] < counter {
      var i' := if i < k then i else i + 1;
      assert rt[i] == rs[i'] && nt[i] == ns[i'];
    }
    forall i, j | 0 <= i < j < |nt| ensures nt[i] < nt[j] {
      var i' := if i < k then i else i + 1;
      var j' := if j < k then j else j + 1;
      assert nt[i] == ns[i'] && nt[j] == ns[j'];
    }
  }

  /** With distinct ids, cutting out the room with an id leaves exactly the rooms with other ids. */
  lemma SpliceMembers(rs: seq<Room>, k: nat, id: string)
    requires k < |rs| && rs[k].id == id
    requires forall i, j :: 0 <= i < j < |rs| ==> rs[i].id != rs[j].id
    ensures forall room :: room in rs[..k] + rs[k + 1..] <==> room in rs && room.id != id
  {
    var t := rs[..k] + rs[k + 1..];
    forall room ensures room in t <==> room in rs && room.id != id {
      if room in rs && room.id != id {
        var i :| 0 <= i < |rs| && rs[i] == room;
        if i < k {
          assert t[i] == room;
        } else {
          assert t[i - 1] == room;
        }
      }
      if room in t {
        var i :| 0 <= i < |t| && t[i] == room;
        var i' := if i < k then i else i + 1;
        assert rs[i'] == room && i' != k;
      }
    }
  }

  /** When no room has the id, every room has another id. */
  lemma AbsentIdMembers(rs: seq<Room>, id: string)
    requires forall j :: 0 <= j < |rs| ==> rs[j].id != id
    ensures forall room :: room in rs ==> room.id != id
  {
    forall room | room in rs ensures room.id != id {
      var i :| 0 <= i < |rs| && rs[i] == room;
    }
  }

  /** `some(p => p.id === playerId)` over the seats of each room: the first room seating the player. */
  function Host(rs: seq<Room>, playerId: string): (k: Option<nat>)
    reads rs
    ensures k.Some? ==>
      k.value < |rs| && FindPlayer(rs[k.value].players, playerId).Some? &&
      forall j :: 0 <= j < k.value ==> FindPlayer(rs[j].players, playerId).None?
    ensures k.None? ==> forall j :: 0 <= j < |rs| ==> FindPlayer(rs[j].players, playerId).None?
  {
    if rs == [] then None
    else if FindPlayer(rs[0].players, playerId).Some? then Some(0)
    else match Host(rs[1..], playerId)
      case None => None
      case Some(k) => Some(k + 1)
  }

  /** One line of the lobby's room list. */
  datatype RoomSummary = RoomSummary(id: string, name: string, playerCount: nat, maxPlayers: nat, status: Status)

  /** The lobby line of each room, in registry order. */
  function Summaries(rs: seq<Room>): (list: seq<RoomSummary>)
    reads rs
    ensures |list| == |rs|
    ensures forall i :: 0 <= i < |rs| ==>
      list[i] == RoomSummary(rs[i].id, rs[i].name, |rs[i].players|, MaxPlayers, rs[i].status)
  {
    if rs == [] then []
    else
      var room := rs[0];
      [RoomSummary(room.id, room.name, |room.players|, MaxPlayers, room.status)] + Summaries(rs[1..])
  }

  // ---------------------------------------------------------------------
  // The registry
  // ---------------------------------------------------------------------

  class RoomManager {
    /** The Map's values in insertion order. */
    var rooms: seq<Room>
    var roomIdCounter: nat
    /** The counter value each room's id was issued from. */
    ghost var numbers: seq<nat>

    ghost predicate Valid()
      reads this
    {
      1 <= roomIdCounter && Numbered(rooms, numbers, roomIdCounter)
    }

    /** An empty registry whose counter starts at 1. */
    constructor ()
      ensures Valid() && rooms == [] && roomIdCounter == 1
    {
      rooms := [];
      roomIdCounter := 1;
      numbers := [];
    }

    /**
     * createRoom: takes the id from the counter and advances it, seats the
     * creator as the first player and registers the room under that id.
     */
    method CreateRoom(name: string, creatorId: string, creatorName: string) returns (room: Room)
      requires Valid()
      modifies this
      ensures Valid()
      ensures roomIdCounter == old(roomIdCounter) + 1
      ensures fresh(room) && room.id == RoomId(old(roomIdCounter)) && rooms == old(rooms) + [room]
      ensures forall i :: 0 <= i < |old(rooms)| ==> old(rooms)[i].id != room.id
      ensures room.Valid() && room.name == name && room.creator == creatorId && room.status == Waiting
      ensures |room.players| == 1 && room.players[0].id == creatorId && room.players[0].name == creatorName
      ensures room.players[0].chips == BaseChips
    {
      NextIdIsFresh(rooms, numbers, roomIdCounter);
      var roomId := RoomId(roomIdCounter);
      numbers := numbers + [roomIdCounter];
      roomIdCounter := roomIdCounter + 1;
      room := new Room(roomId, name, creatorId);
      var _ := room.AddPlayer(creatorId, creatorName);
      rooms := rooms + [room];
    }

    /** getRoom: the room registered under that id, or null. */
    function GetRoom(roomId: string): (r: Room?)
      reads this
      ensures r != null ==> r in rooms && r.id == roomId
      ensures r == null ==> forall i :: 0 <= i < |rooms| ==> rooms[i].id != roomId
    {
      match FindRoom(rooms, roomId)
      case Some(k) => rooms[k]
      case None => null
    }

    /** deleteRoom: removes the room with that id and reports whether there was one. */
    method DeleteRoom(roomId: string) returns (deleted: bool)
      requires Valid()
      modifies this
      ensures Valid()
      ensures deleted <==> old(FindRoom(rooms, roomId)).Some?
      ensures !deleted ==> rooms == old(rooms)
      ensures deleted ==> var k := old(FindRoom(rooms, roomId)).value; rooms == old(rooms[..k] + rooms[k + 1..])
      ensures forall room :: room in rooms <==> room in old(rooms) && room.id != roomId
      ensures roomIdCounter == old(roomIdCounter)
    {
      var found := FindRoom(rooms, roomId);
      if found.None? {
        AbsentIdMembers(rooms, roomId);
        return false;
      }
      var k := found.value;
      ghost var before, issued := rooms, numbers;
      rooms := rooms[..k] + rooms[k + 1..];
      numbers := numbers[..k] + numbers[k + 1..];
      SpliceNumbered(before, issued, roomIdCounter, k);
      NumberedIdsDistinct(before, issued, roomIdCounter);
      SpliceMembers(before, k, roomId);
      deleted := true;
    }

    /** getRoomList: the lobby line of every room, in insertion order. */
    function GetRoomList(): (list: seq<RoomSummary>)
      reads this, rooms
      ensures |list| == |rooms|
      ensures forall i :: 0 <= i < |rooms| ==>
        list[i].id == rooms[i].id && list[i].playerCount == |rooms[i].players| && list[i].status == rooms[i].status
    {
      Summaries(rooms)
    }

    /** findPlayerRoom: walks the rooms in insertion order and returns the first seating the player. */
    method FindPlayerRoom(playerId: string) returns (r: Room?)
      ensures Host(rooms, playerId).None? ==> r == null
      ensures Host(rooms, playerId).Some? ==> r == rooms[Host(rooms, playerId).value]
    {
      for i := 0 to |rooms|
        invariant forall j :: 0 <= j < i ==> FindPlayer(rooms[j].players, playerId).None?
      {
        if FindPlayer(rooms[i].players, playerId).Some? {
          return rooms[i];
        }
      }
      return null;
    }
  }

  /** In a numbered registry the lobby list names every room once. */
  lemma RoomListIdsDistinct(m: RoomManager)
    requires m.Valid()
    ensures var list := m.GetRoomList(); forall i, j :: 0 <= i < j < |list| ==> list[i].id != list[j].id
  {
    NumberedIdsDistinct(m.rooms, m.numbers, m.roomIdCounter);
  }

  /** In a numbered registry getRoom finds each registered room under its own id. */
  lemma GetRoomFindsEveryRoom(m: RoomManager, k: nat)
    requires m.Valid() && k < |m.rooms|
    ensures m.GetRoom(m.rooms[k].id) == m.rooms[k]
  {
    NumberedIdsDistinct(m.rooms, m.numbers, m.roomIdCounter);
    FindRoomFindsOwnId(m.rooms, k);
  }
}
