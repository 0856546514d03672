/** The bridge's WebSocket side: the registry of connected browser clients, the
    fan-out of telemetry to them, and the reply to client commands. Sockets are
    opaque identities; whether a socket is available and whether a send or a
    close on it fails are supplied by the caller. */
module Hub {
  import opened Common

  type SocketId = nat

  /** `List.Remove`: drops the first occurrence of `x`, if any. */
  function RemoveFirst(s: seq<SocketId>, x: SocketId): (r: seq<SocketId>)
    ensures x !in s ==> r == s
    ensures x in s ==> |r| == |s| - 1 && multiset(r) == multiset(s) - multiset{x}
  {
    if s == [] then []
    else if s[0] == x then assert s == [s[0]] + s[1..]; s[1..]
    else assert s == [s[0]] + s[1..]; [s[0]] + RemoveFirst(s[1..], x)
  }

  /** Position of the first occurrence of `x`. */
  function IndexOf(s: seq<SocketId>, x: SocketId): (i: nat)
    requires x in s
    ensures i < |s| && s[i] == x && x !in s[..i]
  {
    if s[0] == x then 0 else 1 + IndexOf(s[1..], x)
  }

  /** Removing a connection leaves every other connection in its place: the
      result is the list with the first occurrence cut out. */
  lemma RemoveFirstCutsOne(s: seq<SocketId>, x: SocketId)
    requires x in s
    ensures RemoveFirst(s, x) == s[..IndexOf(s, x)] + s[IndexOf(s, x) + 1..]
  {
    CutAt(s, x, IndexOf(s, x));
  }

  lemma {:induction false} CutAt(s: seq<SocketId>, x: SocketId, i: nat)
    requires i < |s| && s[i] == x && x !in s[..i]
    ensures RemoveFirst(s, x) == s[..i] + s[i + 1..]
  {
    if i > 0 {
      assert s[0] in s[..i];
      var t := s[1..];
      assert t[..i - 1] == s[1..i];
      CutAt(t, x, i - 1);
      assert s[..i] == [s[0]] + t[..i - 1];
      assert s[i + 1..] == t[i..];
    }
  }

  /** The clients a broadcast reaches, in list order: those available whose
      send does not fail. */
  function Deliveries(clients: seq<SocketId>, available: set<SocketId>, failing: set<SocketId>): (r: seq<SocketId>)
    ensures |r| <= |clients|
    ensures forall c :: c in r <==> c in clients && c in available && c !in failing
  {
    if clients == [] then []
    else
      var rest := Deliveries(clients[1..], available, failing);
      if clients[0] in available && clients[0] !in failing then [clients[0]] + rest else rest
  }

  /** The clients a broadcast attempts to send to: the available ones. */
  function Attempts(clients: seq<SocketId>, available: set<SocketId>): (r: seq<SocketId>)
    ensures |r| <= |clients|
    ensures forall c :: c in r <==> c in clients && c in available
  {
    if clients == [] then []
    else
      var rest := Attempts(clients[1..], available);
      if clients[0] in available then [clients[0]] + rest else rest
  }

  /** Failures only thin out the attempts: the deliveries are the attempted
      clients, in the same order, minus the failing ones; with no failure every
      attempt is delivered. */
  lemma {:induction false} FailureIsolated(clients: seq<SocketId>, available: set<SocketId>, failing: set<SocketId>)
    ensures Deliveries(clients, available, failing) == Deliveries(Attempts(clients, available), available, failing)
    ensures Deliveries(clients, available, {}) == Attempts(clients, available)
  {
    if clients != [] {
      FailureIsolated(clients[1..], available, failing);
      var rest := Attempts(clients[1..], available);
      if clients[0] in available {
        assert ([clients[0]] + rest)[1..] == rest;
      }
    }
  }

  lemma {:induction false} DeliveriesAppend(clients: seq<SocketId>, c: SocketId, available: set<SocketId>, failing: set<SocketId>)
    ensures Deliveries(clients + [c], available, failing)
         == Deliveries(clients, available, failing) + (if c in available && c !in failing then [c] else [])
  {
    if clients == [] {
      assert [] + [c] == [c];
    } else {
      assert (clients + [c])[1..] == clients[1..] + [c];
      DeliveriesAppend(clients[1..], c, available, failing);
    }
  }

  /** A parsed client command; its payload is not interpreted. */
  datatype ClientCommand = ClientCommand(kind: Option<string>)

  const PongReply: string := "{\"type\":\"pong\"}"

  /** The answer to one client message: `None` models a message that does not
      parse (or parses to nothing). Only "ping" is answered, with one pong. */
  function HandleClientMessage(parsed: Option<ClientCommand>): (reply: Option<string>)
    ensures reply.Some? <==> parsed.Some? && parsed.value.kind == Some("ping")
    ensures reply.Some? ==> reply.value == PongReply
  {
    match parsed
    case Some(ClientCommand(Some(kind))) => if kind == "ping" then Some(PongReply) else None
    case _ => None
  }

  class BridgeServer {
    var clients: seq<SocketId>
    var disposed: bool
    /** How many times the server has been stopped. */
    ghost var stopCount: nat

    constructor ()
      ensures clients == [] && !disposed && stopCount == 0
    {
      clients := [];
      disposed := false;
      stopCount := 0;
    }

    function ClientCount(): (n: nat)
      reads this
      ensures n == |clients|
    {
      |clients|
    }

    method OnOpen(socket: SocketId)
      modifies this
      ensures clients == old(clients) + [socket]
      ensures disposed == old(disposed) && stopCount == old(stopCount)
    {
      clients := clients + [socket];
    }

    method OnClose(socket: SocketId)
      modifies this
      ensures clients == RemoveFirst(old(clients), socket)
      ensures disposed == old(disposed) && stopCount == old(stopCount)
    {
      clients := RemoveFirst(clients, socket);
    }

    /** An error on a socket drops it exactly like a close. */
    method OnError(socket: SocketId)
      modifies this
      ensures clients == RemoveFirst(old(clients), socket)
      ensures disposed == old(disposed) && stopCount == old(stopCount)
    {
      clients := RemoveFirst(clients, socket);
    }

    /** Closes every client of a copy of the list (close failures are ignored)
        and empties the list; returns the close attempts in order. */
    method Stop() returns (closed: seq<SocketId>)
      modifies this
      ensures closed == old(clients) && clients == []
      ensures disposed == old(disposed) && stopCount == old(stopCount) + 1
    {
      var copy := clients;
      closed := [];
      var i := 0;
      while i < |copy|
        invariant 0 <= i <= |copy|
        invariant closed == copy[..i]
      {
        closed := closed + [copy[i]];
        i := i + 1;
      }
      clients := [];
      stopCount := stopCount + 1;
    }

    /** Sends to one client when it is available; a failure is only logged. */
    method SendToClient(client: SocketId, available: set<SocketId>, failing: set<SocketId>) returns (delivered: bool)
      ensures delivered <==> client in available && client !in failing
    {
      delivered := false;
      if client in available {
        if client !in failing {
          delivered := true;
        }
      }
    }

    /** Sends to every available client of a copy of the list; a failing send
        is skipped and the loop goes on. The list itself is not touched. */
    method Broadcast(available: set<SocketId>, failing: set<SocketId>) returns (delivered: seq<SocketId>)
      ensures delivered == Deliveries(clients, available, failing)
    {
      var copy := clients;
      delivered := [];
      var i := 0;
      while i < |copy|
        invariant 0 <= i <= |copy|
        invariant delivered == Deliveries(copy[..i], available, failing)
      {
        assert copy[..i + 1] == copy[..i] + [copy[i]];
        DeliveriesAppend(copy[..i], copy[i], available, failing);
        if copy[i] in available {
          if copy[i] !in failing {
            delivered := delivered + [copy[i]];
          }
        }
        i := i + 1;
      }
      assert copy[..|copy|] == copy;
    }

    /** Stops the server the first time only. */
    method Dispose()
      modifies this
      ensures disposed
      ensures old(disposed) ==> clients == old(clients) && stopCount == old(stopCount)
      ensures !old(disposed) ==> clients == [] && stopCount == old(stopCount) + 1
    {
      if disposed {
        return;
      }
      disposed := true;
      var _ := Stop();
    }
  }
}
