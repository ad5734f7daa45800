/** The relay's shared tables.  Each function is one mutex section of the relay; the class
    holds the tables as mutable fields and its methods perform the sections in place. */
module RelayTables {
  import opened Text
  import opened Control

  type Conn = nat

  /** A parked client and the capacity-1 channel its data connection will arrive on. */
  datatype WaitEntry = WaitEntry(client: Conn, dataCh: Conn)

  datatype Tables = Tables(
    ctrl: map<string, Conn>,
    lastPhone: string,
    nextID: nat,
    wait: map<string, WaitEntry>,
    connCID: nat)

  const EMPTY := Tables(map[], "", 0, map[], 0)

  // ---- Sections under ctrlMu ----

  function Register(t: Tables, conn: Conn): Tables {
    var id := PhoneId(t.nextID + 1);
    t.(nextID := t.nextID + 1, ctrl := t.ctrl[id := conn], lastPhone := id)
  }

  function Unregister(t: Tables, id: string): Tables {
    t.(ctrl := t.ctrl - {id}, lastPhone := if t.lastPhone == id then "" else t.lastPhone)
  }

  function Lookup(t: Tables, id: string): Option<Conn> {
    if id in t.ctrl then Some(t.ctrl[id]) else None
  }

  // ---- Sections under waitMu ----

  function Park(t: Tables, client: Conn, ch: Conn): Tables {
    var cid := ClientId(t.connCID + 1);
    t.(connCID := t.connCID + 1, wait := t.wait[cid := WaitEntry(client, ch)])
  }

  function ParkAs(t: Tables, id: string, client: Conn, ch: Conn): Tables {
    t.(wait := t.wait[id := WaitEntry(client, ch)])
  }

  function Waiter(t: Tables, id: string): Option<WaitEntry> {
    if id in t.wait then Some(t.wait[id]) else None
  }

  function Unpark(t: Tables, id: string): Tables {
    t.(wait := t.wait - {id})
  }

  class Relay {
    var ctrl: map<string, Conn>
    var lastPhone: string
    var nextID: nat
    var wait: map<string, WaitEntry>
    var connCID: nat

    function State(): Tables
      reads this
    {
      Tables(ctrl, lastPhone, nextID, wait, connCID)
    }

    constructor ()
      ensures State() == EMPTY
    {
      ctrl, lastPhone, nextID, wait, connCID := map[], "", 0, map[], 0;
    }

    method RegisterPhone(conn: Conn) returns (id: string)
      modifies this
      ensures State() == Register(old(State()), conn)
      ensures nextID == old(nextID) + 1 && id == "p" + Dec(nextID) && lastPhone == id
      ensures ctrl == old(ctrl)[id := conn] && wait == old(wait) && connCID == old(connCID)
    {
      nextID := nextID + 1;
      id := PhoneId(nextID);
      ctrl := ctrl[id := conn];
      lastPhone := id;
    }

    method UnregisterPhone(id: string)
      modifies this
      ensures State() == Unregister(old(State()), id)
      ensures ctrl == old(ctrl) - {id} && lastPhone == if old(lastPhone) == id then "" else old(lastPhone)
      ensures nextID == old(nextID) && wait == old(wait) && connCID == old(connCID)
    {
      ctrl := ctrl - {id};
      if lastPhone == id {
        lastPhone := "";
      }
    }

    method LastPhone() returns (id: string)
      ensures id == State().lastPhone
    {
      id := lastPhone;
    }

    method FindPhone(id: string) returns (conn: Option<Conn>)
      ensures conn == Lookup(State(), id)
      ensures conn == if id in ctrl then Some(ctrl[id]) else None
    {
      if id in ctrl {
        conn := Some(ctrl[id]);
      } else {
        conn := None;
      }
    }

    method ParkClient(client: Conn, ch: Conn) returns (cid: string)
      modifies this
      ensures State() == Park(old(State()), client, ch)
      ensures connCID == old(connCID) + 1 && cid == "c" + Dec(connCID)
      ensures wait == old(wait)[cid := WaitEntry(client, ch)]
      ensures ctrl == old(ctrl) && lastPhone == old(lastPhone) && nextID == old(nextID)
    {
      connCID := connCID + 1;
      cid := ClientId(connCID);
      wait := wait[cid := WaitEntry(client, ch)];
    }

    method ParkLegacy(id: string, client: Conn, ch: Conn)
      modifies this
      ensures State() == ParkAs(old(State()), id, client, ch)
      ensures wait == old(wait)[id := WaitEntry(client, ch)] && connCID == old(connCID)
      ensures ctrl == old(ctrl) && lastPhone == old(lastPhone) && nextID == old(nextID)
    {
      wait := wait[id := WaitEntry(client, ch)];
    }

    /** The claim of a `data:` connection: find the waiter and take it out in one section. */
    method Claim(id: string) returns (entry: Option<WaitEntry>)
      modifies this
      ensures entry == Waiter(old(State()), id)
      ensures State() == Unpark(old(State()), id)
      ensures entry == (if id in old(wait) then Some(old(wait)[id]) else None) && wait == old(wait) - {id}
      ensures ctrl == old(ctrl) && lastPhone == old(lastPhone) && nextID == old(nextID) && connCID == old(connCID)
    {
      if id in wait {
        entry := Some(wait[id]);
        wait := wait - {id};
      } else {
        entry := None;
        assert wait - {id} == wait;
      }
    }

    method RemoveWaiter(id: string)
      modifies this
      ensures State() == Unpark(old(State()), id)
      ensures wait == old(wait) - {id} && connCID == old(connCID)
      ensures ctrl == old(ctrl) && lastPhone == old(lastPhone) && nextID == old(nextID)
    {
      wait := wait - {id};
    }
  }
}
