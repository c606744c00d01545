/**
 * `CommandDispatcher`: a registry from a command's exact class to the handler
 * for it, kept in a dict whose key order is the order of first registration.
 */
module Dispatch {
  import opened Wrappers
  import opened Errors
  import opened Commands
  import opened Dtos

  /** A Python class: its name and the class it derives from, if any. */
  datatype CommandType = CommandType(name: string, base: Option<CommandType>)

  /** `issubclass(t, u)`. */
  predicate IsSubclass(t: CommandType, u: CommandType)
    decreases t
  {
    t == u || (t.base.Some? && IsSubclass(t.base.value, u))
  }

  /** A command object: the class it is an instance of (`type(command)`) and
      its fields. */
  datatype Command = Command(typ: CommandType, payload: AnyCommand)

  /** A handler object; `handle` returns the handler's result or raises. */
  datatype Handler = Handler(handle: Command -> Result<Response>)

  /** The dispatcher's `ValueError` for a command whose class has no handler. */
  function NoHandlerError(t: CommandType): Error {
    Other("No handler registered for command type: " + t.name)
  }

  /** The dict `_handlers`: its bindings and its key order. */
  datatype Registry = Registry(handlers: map<CommandType, Handler>, order: seq<CommandType>)

  /** The key order lists every key once and nothing else. */
  ghost predicate WellFormed(reg: Registry) {
    && (forall i, j :: 0 <= i < j < |reg.order| ==> reg.order[i] != reg.order[j])
    && (forall t :: t in reg.handlers <==> t in reg.order)
  }

  /** `_handlers[t] = h`: a new key goes to the end of the order, an existing
      key keeps its place and gets the new handler. */
  function Registered(reg: Registry, t: CommandType, h: Handler): (r: Registry)
    requires WellFormed(reg)
    ensures WellFormed(r)
    ensures t in r.handlers && r.handlers[t] == h
    ensures forall u :: u != t ==> (u in r.handlers <==> u in reg.handlers)
    ensures forall u :: u != t && u in reg.handlers ==> r.handlers[u] == reg.handlers[u]
    ensures |r.order| == |reg.order| + (if t in reg.handlers then 0 else 1)
    ensures r.order[..|reg.order|] == reg.order
  {
    if t in reg.handlers then
      Registry(reg.handlers[t := h], reg.order)
    else
      Registry(reg.handlers[t := h], reg.order + [t])
  }

  /** A well-formed order is as long as the dict has keys. */
  lemma {:induction false} OrderCoversKeys(reg: Registry)
    requires WellFormed(reg)
    ensures |reg.order| == |reg.handlers.Keys|
    decreases |reg.order|
  {
    if reg.order != [] {
      var last := reg.order[|reg.order| - 1];
      var rest := Registry(reg.handlers - {last}, reg.order[..|reg.order| - 1]);
      forall t ensures t in rest.handlers <==> t in rest.order {
        if t in reg.order && t != last {
          var i :| 0 <= i < |reg.order| && reg.order[i] == t;
          assert i < |reg.order| - 1;
          assert rest.order[i] == t;
        }
      }
      OrderCoversKeys(rest);
      assert reg.handlers.Keys == rest.handlers.Keys + {last};
    } else {
      assert reg.handlers.Keys == {};
    }
  }

  /** Registering the same class twice keeps only the last handler, and the
      class keeps the place of its first registration. */
  lemma LastRegistrationWins(reg: Registry, t: CommandType, h1: Handler, h2: Handler)
    requires WellFormed(reg)
    ensures Registered(Registered(reg, t, h1), t, h2) == Registered(reg, t, h2)
  {
    var first := Registered(reg, t, h1);
    assert first.handlers == reg.handlers[t := h1];
    assert first.order == if t in reg.handlers then reg.order else reg.order + [t];
    assert reg.handlers[t := h1][t := h2] == reg.handlers[t := h2];
  }

  /** The dispatcher's routing: the handler bound to the command's exact class
      decides the outcome; without one it is the `ValueError`. */
  function Route(reg: Registry, command: Command): Result<Response> {
    if command.typ in reg.handlers then reg.handlers[command.typ].handle(command)
    else Err(NoHandlerError(command.typ))
  }

  /** Lookup is by exact class: an instance of a subclass of a registered class
      is refused unless the subclass itself is registered. The refusal needs
      only that the subclass is unregistered; the registered superclass is the
      case worth stating, where an `isinstance` lookup would have succeeded,
      and it also shows that the two classes differ. */
  lemma ExactTypeLookup(reg: Registry, command: Command, registered: CommandType)
    requires registered in reg.handlers && IsSubclass(command.typ, registered)
    requires command.typ !in reg.handlers
    ensures Route(reg, command) == Err(NoHandlerError(command.typ))
    ensures command.typ != registered
  {
  }

  /** Routing looks only at the binding for the command's class: two registries
      that agree there route that command the same way. */
  lemma RouteUsesOnlyItsHandler(reg1: Registry, reg2: Registry, command: Command)
    requires command.typ in reg1.handlers <==> command.typ in reg2.handlers
    requires command.typ in reg1.handlers ==> reg1.handlers[command.typ] == reg2.handlers[command.typ]
    ensures Route(reg1, command) == Route(reg2, command)
  {
  }

  /** After `register_handler(t, h)`, a `t` command goes to `h`. */
  lemma RegisteredHandlerIsUsed(reg: Registry, t: CommandType, h: Handler, payload: AnyCommand)
    requires WellFormed(reg)
    ensures Route(Registered(reg, t, h), Command(t, payload)) == h.handle(Command(t, payload))
  {
  }

  class CommandDispatcher {
    var handlers: map<CommandType, Handler>
    var order: seq<CommandType>

    function State(): Registry
      reads this
    {
      Registry(handlers, order)
    }

    ghost predicate Valid()
      reads this
    {
      WellFormed(State())
    }

    /** A fresh dispatcher knows no command class. */
    constructor ()
      ensures Valid()
      ensures handlers == map[] && order == []
    {
      handlers := map[];
      order := [];
    }

    method RegisterHandler(commandType: CommandType, handler: Handler)
      requires Valid()
      modifies this
      ensures Valid()
      ensures State() == Registered(old(State()), commandType, handler)
    {
      if commandType !in handlers {
        order := order + [commandType];
      }
      handlers := handlers[commandType := handler];
    }

    /** The alias `register`. */
    method Register(commandType: CommandType, handler: Handler)
      requires Valid()
      modifies this
      ensures Valid()
      ensures State() == Registered(old(State()), commandType, handler)
    {
      RegisterHandler(commandType, handler);
    }

    /** Calls only the handler of `type(command)` and returns or raises exactly
      what it does; the registry is only read. */
    method Dispatch(command: Command) returns (r: Result<Response>)
      ensures command.typ !in handlers ==> r == Err(NoHandlerError(command.typ))
      ensures command.typ in handlers ==> r == handlers[command.typ].handle(command)
      ensures r == Route(State(), command)
    {
      var commandType := command.typ;
      if commandType !in handlers {
        return Err(NoHandlerError(commandType));
      }
      var handler := handlers[commandType];
      r := handler.handle(command);
    }

    method IsRegistered(commandType: CommandType) returns (b: bool)
      ensures b <==> commandType in handlers
    {
      b := commandType in handlers;
    }

    /** `list(self._handlers.keys())`: each registered class once, in order of
      first registration. */
    method GetRegisteredCommands() returns (types: seq<CommandType>)
      requires Valid()
      ensures forall t :: t in types <==> t in handlers
      ensures forall i, j :: 0 <= i < j < |types| ==> types[i] != types[j]
      ensures |types| == |handlers.Keys|
      ensures types == order
    {
      OrderCoversKeys(State());
      types := order;
    }
  }

  /** `LoggingMiddleware.execute` without its logging and timing: the result or
      the exception of the next handler, untouched. */
  function LoggingMiddleware(command: Command, next: Command -> Result<Response>): (r: Result<Response>)
    ensures r.Ok? <==> next(command).Ok?
    ensures r.Err? ==> r.error == next(command).error
    ensures r.Ok? ==> r.value == next(command).value
  {
    next(command)
  }
}
