/** DBusSignalProducer: emits D-Bus signals from a fixed sender address
    (bus name, interface, object path), with overloads that fall back to the
    stored parts of the address for whatever the caller leaves out. */
module Producer {
  import opened CStrings
  import opened Bus

  /** The DBusException cases the producer raises. */
  datatype SignalError =
    | EmptyInterface
    | EmptyObjectPath
    | SendFailed(signalName: string)

  /** The outcome of an operation that returns nothing or throws. */
  datatype Status = Pass | Fail(error: SignalError)

  datatype Result<T> = Success(value: T) | Failure(error: SignalError)

  /** validate_params: the interface is checked first, then the object path. */
  function ValidateParams(iface: string, objpath: string): (r: Status)
    ensures r.Pass? <==> iface != "" && objpath != ""
    ensures iface == "" ==> r == Fail(EmptyInterface)
    ensures iface != "" && objpath == "" ==> r == Fail(EmptyObjectPath)
  {
    if iface == "" then Fail(EmptyInterface)
    else if objpath == "" then Fail(EmptyObjectPath)
    else Pass
  }

  /** The signal handed to g_dbus_connection_emit_signal: the destination,
      object path and interface go through string2C_char, so an empty one
      becomes NULL; the member name is `c_str()` of the signal name, never
      NULL, read up to its first NUL. */
  function EmitFrame(busn: string, iface: string, objpath: string, signalName: string, params: Option<Variant>): (f: Frame)
    ensures f.destination == None <==> busn == ""
    ensures f.iface == None <==> iface == ""
    ensures f.path == None <==> objpath == ""
    ensures f.params == params
    ensures '\0' !in busn + iface + objpath + signalName ==>
              && CCharToString(f.destination) == busn
              && CCharToString(f.iface) == iface
              && CCharToString(f.path) == objpath
              && f.member == signalName
  {
    Frame(StringToCChar(busn), StringToCChar(objpath), StringToCChar(iface), UpToNul(signalName), params)
  }

  /** A producer that passed validate_params emits, from its stored address,
      a signal whose interface and object path are real strings, equal to
      the stored ones when they hold no NUL. */
  lemma StoredAddressIsComplete(busn: string, iface: string, objpath: string, signalName: string, params: Option<Variant>)
    requires ValidateParams(iface, objpath).Pass?
    ensures var f := EmitFrame(busn, iface, objpath, signalName, params);
      && f.iface.Some? && f.path.Some?
      && ('\0' !in iface ==> f.iface.value == iface)
      && ('\0' !in objpath ==> f.path.value == objpath)
  {
  }

  class DBusSignalProducer {
    const conn: Connection
    const busName: string
    const iface: string
    const objectPath: string

    /** Holds for every producer Create hands out. */
    predicate Valid()
    {
      ValidateParams(iface, objectPath).Pass?
    }

    /** Stores an address that passed validate_params; Create is the way in
        that checks it. */
    constructor (conn: Connection, busname: string, interf: string, objpath: string)
      requires ValidateParams(interf, objpath).Pass?
      ensures Valid()
      ensures this.conn == conn && busName == busname && iface == interf && objectPath == objpath
    {
      this.conn := conn;
      busName := busname;
      iface := interf;
      objectPath := objpath;
    }

    /** The two constructors: store the address, then validate_params throws
        on an empty interface or object path, so no producer exists then. */
    static method Create(conn: Connection, busname: string, interf: string, objpath: string)
      returns (r: Result<DBusSignalProducer>)
      ensures r.Failure? <==> ValidateParams(interf, objpath).Fail?
      ensures r.Failure? ==> ValidateParams(interf, objpath) == Fail(r.error)
      ensures r.Success? ==>
        && fresh(r.value) && r.value.Valid()
        && r.value.conn == conn && r.value.busName == busname
        && r.value.iface == interf && r.value.objectPath == objpath
    {
      var status := ValidateParams(interf, objpath);
      if status.Fail? {
        return Failure(status.error);
      }
      var p := new DBusSignalProducer(conn, busname, interf, objpath);
      return Success(p);
    }

    /** The effect of one Send: exactly one emit call on the connection,
        with the frame built from these arguments, and a failure, carrying
        the signal name, exactly when the bus refuses it. Subscriptions are
        untouched. */
    twostate predicate SentAs(busn: string, interf: string, objpath: string, signalName: string,
                              params: Option<Variant>, r: Status)
      reads conn
    {
      var f := EmitFrame(busn, interf, objpath, signalName, params);
      && conn.log == old(conn.log) + [Emitted(f, r.Pass?)]
      && (r.Pass? <==> conn.accepts(f))
      && (r.Fail? ==> r.error == SendFailed(signalName))
      && conn.live == old(conn.live) && conn.nextId == old(conn.nextId)
    }

    /** Send(busn, interf, objpath, signal_name, params). */
    method Send(busn: string, interf: string, objpath: string, signalName: string, params: Option<Variant>)
      returns (r: Status)
      modifies conn
      ensures SentAs(busn, interf, objpath, signalName, params, r)
    {
      var ok := conn.Emit(EmitFrame(busn, interf, objpath, signalName, params));
      if !ok {
        return Fail(SendFailed(signalName));
      }
      return Pass;
    }

    /** Send(busn, interf, signal_name, params): the stored object path. */
    method SendToBus(busn: string, interf: string, signalName: string, params: Option<Variant>)
      returns (r: Status)
      modifies conn
      ensures SentAs(busn, interf, objectPath, signalName, params, r)
    {
      r := Send(busn, interf, objectPath, signalName, params);
    }

    /** Send(busn, interf, signal_name): the stored object path, no payload. */
    method SendToBusNoParams(busn: string, interf: string, signalName: string)
      returns (r: Status)
      modifies conn
      ensures SentAs(busn, interf, objectPath, signalName, None, r)
    {
      r := Send(busn, interf, objectPath, signalName, None);
    }

    /** Send(interf, signal_name, params): the stored bus name and object path. */
    method SendOnInterface(interf: string, signalName: string, params: Option<Variant>)
      returns (r: Status)
      modifies conn
      ensures SentAs(busName, interf, objectPath, signalName, params, r)
    {
      r := Send(busName, interf, objectPath, signalName, params);
    }

    /** Send(interf, signal_name): the stored bus name and object path, no payload. */
    method SendOnInterfaceNoParams(interf: string, signalName: string)
      returns (r: Status)
      modifies conn
      ensures SentAs(busName, interf, objectPath, signalName, None, r)
    {
      r := Send(busName, interf, objectPath, signalName, None);
    }

    /** Send(signal_name, params): the whole stored address. */
    method SendSignal(signalName: string, params: Option<Variant>)
      returns (r: Status)
      modifies conn
      ensures SentAs(busName, iface, objectPath, signalName, params, r)
    {
      r := Send(busName, iface, objectPath, signalName, params);
    }

    /** Send(signal_name): the whole stored address, no payload. */
    method SendSignalNoParams(signalName: string)
      returns (r: Status)
      modifies conn
      ensures SentAs(busName, iface, objectPath, signalName, None, r)
    {
      r := Send(busName, iface, objectPath, signalName, None);
    }
  }
}
