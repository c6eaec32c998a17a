/** The server's global tables and the handlers that update them in place. HW6/hogwarts.c:187-255,
    287-367, 467-521, 560-613. */
module MagicServer {
  import opened Basics
  import opened Inventory
  import C = Commands

  class Server {
    const names: seq<string>
    const stock: array<int>
    const clients: array<Client>
    /** What disconnected spellbooks still held. */
    ghost var lost: seq<int>

    /** What the tables hold. */
    ghost function Contents(): Hall
      reads this, stock, clients
    {
      Hall(names, stock[..], clients[..], lost)
    }

    /** The tables are those of this hall. */
    ghost predicate Shows(h: Hall)
      reads this, stock, clients
    {
      Shaped(h) && Contents() == h
    }

    constructor (names: seq<string>, quantities: seq<int>, maxClients: nat)
      requires |names| == |quantities|
      ensures Shows(Hall(names, quantities, seq(maxClients, _ => NOBODY), seq(|names|, _ => 0)))
      ensures fresh(stock) && fresh(clients)
      ensures Init(quantities, Hall(names, quantities, seq(maxClients, _ => NOBODY), seq(|names|, _ => 0)))
    {
      this.names := names;
      stock := new int[|quantities|](i requires 0 <= i < |quantities| => quantities[i]);
      clients := new Client[maxClients](_ => NOBODY);
      lost := seq(|names|, _ => 0);
    }

    method FindIndex(name: string) returns (k: int)
      ensures match FindIngredient(names, name)
              case None => k == -1
              case Some(j) => k == j
    {
      k := 0;
      while k < |names|
        invariant 0 <= k <= |names| && name !in names[..k]
      {
        if names[k] == name {
          FirstIndex(names, name, k);
          return;
        }
        k := k + 1;
      }
      assert names[..k] == names;
      k := -1;
    }

    method NameTaken(name: string) returns (taken: bool)
      ensures taken == UsernameExists(clients[..], name)
    {
      var i := 0;
      while i < clients.Length
        invariant i <= clients.Length
        invariant forall j :: 0 <= j < i ==> !(clients[j].connected && clients[j].username != "" && clients[j].username == name)
      {
        var c := clients[i];
        if c.connected && c.username != "" && c.username == name {
          assert clients[..][i] == c;
          return true;
        }
        i := i + 1;
      }
      return false;
    }

    method HandleEnroll(i: nat, tokens: seq<string>, ghost h: Hall) returns (reply: Reply)
      requires Shows(h) && i < clients.Length
      modifies clients
      ensures Shows(Enroll(h, i, tokens).hall) && reply == Enroll(h, i, tokens).reply
    {
      if |tokens| != 3 || (tokens[1] != "WIZARD" && tokens[1] != "PROFESSOR") || !ValidUsername(tokens[2]) {
        return UnknownEnroll;
      }
      var taken := NameTaken(tokens[2]);
      if clients[i].username != "" || taken {
        return Reply.NameTaken;
      }
      clients[i] := clients[i].(username := tokens[2], role := tokens[1]);
      return Enrolled(tokens[2]);
    }

    /** The two updates of a BREW or CONSUME. */
    method Move(i: nat, k: nat, delta: int, ghost h: Hall)
      requires Shows(h) && i < clients.Length && clients[i].connected && k < |names|
      modifies stock, clients
      ensures Shows(Moved(h, i, k, delta))
    {
      stock[k] := stock[k] + delta;
      var c := clients[i];
      clients[i] := c.(book := c.book[k := c.book[k] + delta]);
    }

    method HandleBrew(i: nat, tokens: seq<string>, ghost h: Hall) returns (reply: Reply)
      requires Shows(h) && i < clients.Length && clients[i].connected && tokens != []
      modifies stock, clients
      ensures Shows(Brew(h, i, tokens).hall) && reply == Brew(h, i, tokens).reply
    {
      if clients[i].role != "WIZARD" {
        return Unauthorized;
      }
      if |tokens| != 3 || ParsePositive(tokens[2]).None? {
        return Unknown(tokens[0]);
      }
      var qty := ParsePositive(tokens[2]).value;
      var k := FindIndex(tokens[1]);
      if k < 0 {
        return UnknownIngredient;
      }
      Move(i, k, qty, h);
      return Brewed(names[k], qty, stock[k]);
    }

    method HandleConsume(i: nat, tokens: seq<string>, ghost h: Hall) returns (reply: Reply)
      requires Shows(h) && i < clients.Length && clients[i].connected && tokens != []
      modifies stock, clients
      ensures Shows(Consume(h, i, tokens).hall) && reply == Consume(h, i, tokens).reply
    {
      if clients[i].role != "WIZARD" {
        return Unauthorized;
      }
      if |tokens| != 3 || ParsePositive(tokens[2]).None? {
        return Unknown(tokens[0]);
      }
      var qty := ParsePositive(tokens[2]).value;
      var k := FindIndex(tokens[1]);
      if k < 0 {
        return UnknownIngredient;
      }
      if stock[k] < qty || clients[i].book[k] < qty {
        return Insufficient;
      }
      Move(i, k, -qty, h);
      return Consumed(names[k], qty, stock[k]);
    }

    method DisconnectClient(i: nat, ghost h: Hall)
      requires Shows(h) && i < clients.Length
      modifies this`lost, clients
      ensures Shows(Disconnected(h, i))
      ensures if h.clients[i].connected then C.Gone(h, i, Contents()) else Contents() == h
    {
      if clients[i].connected {
        lost := Added(lost, clients[i].book);
        clients[i] := NOBODY;
      }
    }

    /** One command line; stop reports that the client has left. */
    method ProcessCommand(i: nat, line: string, now: int, ghost h: Hall) returns (reply: Reply, stop: bool)
      requires Shows(h) && i < clients.Length && clients[i].connected
      modifies this`lost, stock, clients
      ensures Shows(Process(h, i, line, now).hall) && reply == Process(h, i, line, now).reply
      ensures stop == reply.Apparated? == !clients[i].connected
      ensures exists words :: C.FirstWords(line, 8, words) && C.Obeys(h, i, words, now, Contents(), reply)
    {
      C.LineObeys(h, i, line, now);
      clients[i] := clients[i].(lastActive := now);
      ghost var h0 := SetClient(h, i, h.clients[i].(lastActive := now));
      stop := false;
      var tokens := Tokens(line, MAX_TOKENS);
      if tokens == [] {
        return Silent, false;
      }
      if tokens[0] == "ENROLL" {
        reply := HandleEnroll(i, tokens, h0);
      } else if clients[i].username == "" {
        reply := NotEnrolled;
      } else if tokens[0] == "APPARATE" {
        if |tokens| != 1 {
          return Unknown(tokens[0]), false;
        }
        DisconnectClient(i, h0);
        return Apparated, true;
      } else if tokens[0] == "BREW" {
        reply := HandleBrew(i, tokens, h0);
      } else if tokens[0] == "CONSUME" {
        reply := HandleConsume(i, tokens, h0);
      } else {
        reply := Report(Hall(names, stock[..], clients[..], seq(|names|, _ => 0)), i, tokens);
      }
    }

    /** A new connection gets the first free slot, with an empty spellbook; false when the hall is full. */
    method AcceptNewClient(now: int, ghost h: Hall) returns (accepted: bool)
      requires Shows(h)
      modifies clients
      ensures Shows(Accepted(h, now)) && accepted == (FreeSlot(h.clients) < |h.clients|)
      ensures C.Admits(h, now, Contents(), accepted)
    {
      C.AcceptAdmits(h, now);
      var i := 0;
      while i < clients.Length && clients[i].connected
        invariant i <= clients.Length && forall j :: 0 <= j < i ==> clients[j].connected
      {
        i := i + 1;
      }
      accepted := i < clients.Length;
      assert i == FreeSlot(clients[..]);
      if accepted {
        clients[i] := clients[i].(connected := true, book := seq(|names|, _ => 0), lastActive := now);
      }
    }

    method DisconnectExpired(now: int, timeout: int, ghost h: Hall)
      requires Shows(h)
      modifies this`lost, clients
      ensures Shows(Expired(h, |h.clients|, now, timeout))
      ensures C.Expires(h.clients, |h.clients|, now, timeout, clients[..])
    {
      C.TimeoutsExpire(h, |h.clients|, now, timeout);
      var i := 0;
      while i < clients.Length
        invariant i <= clients.Length && Shows(Expired(h, i, now, timeout))
      {
        if clients[i].connected && now - clients[i].lastActive >= timeout {
          DisconnectClient(i, Expired(h, i, now, timeout));
        }
        i := i + 1;
      }
    }
  }

  lemma {:induction false} FirstIndex(names: seq<string>, name: string, k: nat)
    requires k < |names| && names[k] == name && name !in names[..k]
    ensures FindIngredient(names, name) == Some(k)
  {
    var n := |names| - 1;
    if k < n {
      assert names[..n][..k] == names[..k];
      FirstIndex(names[..n], name, k);
    } else {
      assert FindIngredient(names[..n], name).None?;
    }
  }
}
