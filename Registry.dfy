/**
 * The server: its listening configuration, built from the constructor's
 * arguments, and the registry of connected sockets keyed by socket id.
 * The websocket library, the http(s) server objects and the handshake are
 * outside the model: an accepted connection is an `Accept` call, a socket's
 * close notification an `OnClientClose` call.
 */
module Registry {
  import opened Wrappers
  import opened Endpoint

  const DEFAULT_HOST: string := "0.0.0.0"
  const DEFAULT_PORT: int := 8080
  const DEFAULT_MAX_PAYLOAD: int := 1024 * 1024 * 10
  /** The object form of the arguments raises a smaller maxPayload to this floor. */
  const MIN_MAX_PAYLOAD: int := 1024

  /** An http or https server handed to the constructor, by identity. */
  type HttpServerRef = nat

  /** The recognised fields of an options object; an absent field leaves the default. */
  datatype Options = Options(
    host: Option<string>,
    port: Option<int>,
    maxPayload: Option<int>,
    server: Option<HttpServerRef>)

  /** A constructor argument, told apart the way the constructor tests it. */
  datatype Arg =
    | Missing                           // undefined
    | HttpServer(handle: HttpServerRef) // an http.Server or https.Server instance
    | Str(text: string)                 // typeof 'string'
    | Num(value: int)                   // typeof 'number'
    | Obj(options: Options)             // any other typeof 'object' (null included: no fields)
    | Other                             // booleans, functions, ...

  datatype Config = Config(
    host: string,
    port: int,
    maxPayload: int,
    server: Option<HttpServerRef>,
    clientTracking: bool)

  function DefaultConfig(): Config {
    Config(DEFAULT_HOST, DEFAULT_PORT, DEFAULT_MAX_PAYLOAD, None, false)
  }

  /** What the constructor's argument dispatch yields, field by field. */
  ghost predicate IsConfigFor(c: Config, first: Arg, second: Arg) {
    && !c.clientTracking
    && c.host == (match first
                  case Str(h) => h
                  case Obj(o) => o.host.GetOr(DEFAULT_HOST)
                  case _ => DEFAULT_HOST)
    && c.port == (match first
                  case Str(_) => if second.Num? then second.value else DEFAULT_PORT
                  case Obj(o) => o.port.GetOr(DEFAULT_PORT)
                  case _ => DEFAULT_PORT)
    && c.server == (match first
                    case HttpServer(s) => Some(s)
                    case Obj(o) => o.server
                    case _ => None)
    && c.maxPayload == (match first
                        case Obj(o) => Max(o.maxPayload.GetOr(DEFAULT_MAX_PAYLOAD), MIN_MAX_PAYLOAD)
                        case _ => DEFAULT_MAX_PAYLOAD)
  }

  function Max(x: int, y: int): int {
    if x >= y then x else y
  }

  /**
   * Builds the listening configuration: the defaults, then one branch chosen
   * by the first argument's kind. Only the options-object branch clamps
   * maxPayload.
   */
  method BuildConfig(first: Arg, second: Arg) returns (config: Config)
    ensures IsConfigFor(config, first, second)
  {
    config := DefaultConfig();
    if first.HttpServer? {
      config := config.(server := Some(first.handle));
    } else if first.Str? {
      config := config.(host := first.text);
      if second.Num? {
        config := config.(port := second.value);
      }
    } else if first.Obj? {
      var o := first.options;
      config := config.(
        host := o.host.GetOr(config.host),
        port := o.port.GetOr(config.port),
        maxPayload := o.maxPayload.GetOr(config.maxPayload),
        server := if o.server.Some? then o.server else config.server);
      config := config.(maxPayload := if config.maxPayload < MIN_MAX_PAYLOAD then MIN_MAX_PAYLOAD else config.maxPayload);
    }
  }

  /** Without arguments (or with an argument of no recognised kind) the defaults stand. */
  lemma DefaultsStand(c: Config, first: Arg, second: Arg)
    requires first.Missing? || first.Num? || first.Other?
    requires IsConfigFor(c, first, second)
    ensures c == DefaultConfig()
    ensures c.host == "0.0.0.0" && c.port == 8080 && c.maxPayload == 10485760 && c.server == None
  {
  }

  /** The options-object form never yields a maxPayload below the floor, and keeps one at or above it. */
  lemma ObjectFormClamps(c: Config, o: Options, second: Arg)
    requires IsConfigFor(c, Obj(o), second)
    ensures c.maxPayload >= MIN_MAX_PAYLOAD
    ensures o.maxPayload.Some? && o.maxPayload.value >= MIN_MAX_PAYLOAD ==> c.maxPayload == o.maxPayload.value
    ensures o.maxPayload.Some? && o.maxPayload.value < MIN_MAX_PAYLOAD ==> c.maxPayload == MIN_MAX_PAYLOAD
  {
  }

  /** The other forms never change maxPayload; the string form changes the port only given a number. */
  lemma OtherFormsKeepMaxPayload(c: Config, first: Arg, second: Arg)
    requires !first.Obj? && IsConfigFor(c, first, second)
    ensures c.maxPayload == DEFAULT_MAX_PAYLOAD
    ensures first.Str? && !second.Num? ==> c.port == DEFAULT_PORT
  {
  }

  datatype ServerEvent = Connection(socketId: nat) | Closed

  class Server {
    const config: Config
    /** The process-wide socket id counter. */
    const counter: IdCounter
    var clients: map<nat, BaseSocket>
    var listening: bool
    var events: seq<ServerEvent>

    /** Every entry is keyed by its socket's id, and that id has already been handed out. */
    ghost predicate Valid()
      reads this, counter
    {
      forall k :: k in clients ==> clients[k].id == k && k < counter.next
    }

    constructor(counter: IdCounter, first: Arg, second: Arg)
      ensures Valid()
      ensures this.counter == counter && IsConfigFor(config, first, second)
      ensures clients == map[] && listening && events == []
    {
      var c := BuildConfig(first, second);
      config := c;
      this.counter := counter;
      clients := map[];
      listening := true;
      events := [];
    }

    /** The default admission hook: every connection is accepted. */
    function VerifyClient(origin: string, secure: bool): (accepted: bool)
      ensures accepted
    {
      true
    }

    /**
     * An accepted connection: a new socket takes the next process-wide id, is
     * added under that id, and `connection` is emitted.
     */
    method Accept(socketConfig: SocketConfig) returns (socket: BaseSocket)
      requires Valid()
      modifies this, counter
      ensures Valid()
      ensures fresh(socket) && socket.Valid() && socket.queue == []
      ensures socket.id == old(counter.next) && counter.next == old(counter.next) + 1
      ensures socket.id !in old(clients)
      ensures clients == old(clients)[socket.id := socket] && |clients| == |old(clients)| + 1
      ensures events == old(events) + [Connection(socket.id)]
      ensures listening == old(listening)
    {
      socket := new BaseSocket(counter, socketConfig);
      clients := clients[socket.id := socket];
      events := events + [Connection(socket.id)];
    }

    /** A socket's close notification: exactly its own entry is removed. */
    method OnClientClose(socket: BaseSocket)
      requires Valid()
      modifies this
      ensures Valid()
      ensures clients == old(clients) - {socket.id}
      ensures forall k :: k in old(clients) && k != socket.id ==> k in clients && clients[k] == old(clients)[k]
      ensures |clients| == if socket.id in old(clients) then |old(clients)| - 1 else |old(clients)|
      ensures events == old(events) && listening == old(listening)
    {
      clients := clients - {socket.id};
    }

    /** Closes the listener and emits `close`; the registered sockets are left alone. */
    method Close()
      requires Valid()
      modifies this
      ensures Valid()
      ensures !listening && events == old(events) + [Closed]
      ensures clients == old(clients)
    {
      listening := false;
      events := events + [Closed];
    }
  }
}
