/** The shared ingredient stock and the clients' spellbooks. HW6/hogwarts.c:187-255, 287-521, 560-613;
    HW6/magic_common.c:46-80. Quantities are mathematical integers. */
module Inventory {
  import opened Basics

  const INT_MAX: int := 0x7fff_ffff
  const MAX_TOKENS: nat := 8

  /** A client slot; a slot that is not connected is all empty. */
  datatype Client = Client(connected: bool, username: string, role: string, book: seq<int>, lastActive: int)

  /** lost records, per ingredient, what spellbooks still held when their clients were disconnected. */
  datatype Hall = Hall(names: seq<string>, stock: seq<int>, clients: seq<Client>, lost: seq<int>)

  datatype Reply =
    | Silent | UnknownEnroll | NameTaken | Enrolled(name: string) | NotEnrolled | Unauthorized
    | Unknown(command: string) | UnknownIngredient | Insufficient
    | Brewed(name: string, qty: int, total: int) | Consumed(name: string, qty: int, total: int)
    | Spellbook(book: seq<int>) | Inspected(name: string, total: int) | Scroll(stock: seq<int>) | Roster(names: seq<string>)
    | Apparated

  const NOBODY: Client := Client(false, "", "", [], 0)

  predicate ValidUsername(s: string) {
    0 < |s| < 32 && forall i :: 0 <= i < |s| ==> IsAlnum(s[i]) || s[i] == '_'
  }

  function Value(digits: string): int {
    if digits == [] then 0 else 10 * Value(digits[..|digits| - 1]) + (digits[|digits| - 1] as int - '0' as int)
  }

  predicate IsSpace(ch: char) {
    ch in "\t\n\U{b}\U{c}\r "
  }

  /** The text is n written with decimal digits, with white space and one plus sign in front allowed. */
  ghost predicate Spells(text: string, n: int) {
    exists i, j :: 0 <= i <= j <= |text| && Numeral(text, i, j) && n == Value(text[j..])
  }

  /** White space up to i, then perhaps a plus sign, and nothing but digits from j on. */
  predicate Numeral(text: string, i: nat, j: nat)
    requires i <= j <= |text|
  {
    && (forall k :: 0 <= k < i ==> IsSpace(text[k]))
    && (j == i || (j == i + 1 && text[i] == '+'))
    && j < |text| && forall k :: j <= k < |text| ==> IsDigit(text[k])
  }

  /** A positive number as strtol reads it, the whole text used and within int. */
  function ParsePositive(text: string): (r: Option<int>)
    ensures r.Some? ==> 0 < r.value <= INT_MAX
  {
    if text != [] && IsSpace(text[0]) then ParsePositive(text[1..])
    else
      var j := if text != [] && text[0] == '+' then 1 else 0;
      if Numeral(text, 0, j) && 0 < Value(text[j..]) <= INT_MAX then Some(Value(text[j..])) else None
  }

  lemma SpellsSpace(text: string, n: int)
    requires text != [] && IsSpace(text[0])
    ensures Spells(text, n) <==> Spells(text[1..], n)
  {
    var rest := text[1..];
    if i, j :| 0 <= i <= j <= |text| && Numeral(text, i, j) && n == Value(text[j..]) {
      assert i > 0;
      assert forall k :: 0 <= k < |rest| ==> rest[k] == text[k + 1];
      assert rest[j - 1..] == text[j..];
      assert Numeral(rest, i - 1, j - 1);
    }
    if i, j :| 0 <= i <= j <= |rest| && Numeral(rest, i, j) && n == Value(rest[j..]) {
      assert forall k :: 0 < k < |text| ==> text[k] == rest[k - 1];
      assert text[j + 1..] == rest[j..];
      assert Numeral(text, i + 1, j + 1);
    }
  }

  lemma SpellsDigits(text: string, n: int)
    requires text == [] || !IsSpace(text[0])
    ensures var j := if text != [] && text[0] == '+' then 1 else 0;
            Spells(text, n) <==> Numeral(text, 0, j) && n == Value(text[j..])
  {
  }

  /** A quantity is accepted exactly when the text spells it and it is between 1 and the largest int. */
  lemma {:induction false} ParsePositiveExact(text: string, n: int)
    ensures ParsePositive(text) == Some(n) <==> Spells(text, n) && 0 < n <= INT_MAX
  {
    if text != [] && IsSpace(text[0]) {
      SpellsSpace(text, n);
      ParsePositiveExact(text[1..], n);
    } else {
      SpellsDigits(text, n);
    }
  }

  /** The first n words of a line, and the line ends at a NUL. */
  function Tokens(line: string, n: nat): (words: seq<string>)
    ensures |words| <= n
    ensures forall i :: 0 <= i < |words| ==> words[i] != []
  {
    if n == 0 || line == [] || line[0] == '\0' then []
    else if Separator(line[0]) then Tokens(line[1..], n)
    else
      var k := WordEnd(line, 0);
      [line[..k]] + Tokens(line[k..], n - 1)
  }

  predicate Separator(ch: char) {
    ch == ' ' || ch == '\t' || ch == '\r' || ch == '\n'
  }

  function WordEnd(line: string, i: nat): (k: nat)
    requires i <= |line|
    ensures i <= k <= |line| && (i < |line| && line[i] != '\0' && !Separator(line[i]) ==> i < k)
    ensures forall j :: i <= j < k ==> line[j] != '\0' && !Separator(line[j])
    ensures k == |line| || line[k] == '\0' || Separator(line[k])
    decreases |line| - i
  {
    if i == |line| || line[i] == '\0' || Separator(line[i]) then i else WordEnd(line, i + 1)
  }

  /** The first ingredient of that name, or none. */
  function FindIngredient(names: seq<string>, name: string): (k: Option<nat>)
    ensures k.Some? ==> k.value < |names| && names[k.value] == name && name !in names[..k.value]
    ensures k.None? ==> name !in names
  {
    if names == [] then None
    else
      var n := |names| - 1;
      var before := FindIngredient(names[..n], name);
      if before.Some? then before else if names[n] == name then Some(n) else None
  }

  predicate UsernameExists(clients: seq<Client>, name: string) {
    exists i :: 0 <= i < |clients| && clients[i].connected && clients[i].username != "" && clients[i].username == name
  }

  function SetClient(h: Hall, i: nat, c: Client): Hall
    requires i < |h.clients|
  {
    h.(clients := h.clients[i := c])
  }

  predicate Shaped(h: Hall) {
    && |h.stock| == |h.names| == |h.lost|
    && forall i :: 0 <= i < |h.clients| ==> |h.clients[i].book| == if h.clients[i].connected then |h.names| else 0
  }

  datatype Result = Result(hall: Hall, reply: Reply)

  function Enroll(h: Hall, i: nat, tokens: seq<string>): Result
    requires i < |h.clients|
  {
    if |tokens| != 3 || (tokens[1] != "WIZARD" && tokens[1] != "PROFESSOR") || !ValidUsername(tokens[2]) then Result(h, UnknownEnroll)
    else if h.clients[i].username != "" || UsernameExists(h.clients, tokens[2]) then Result(h, NameTaken)
    else Result(SetClient(h, i, h.clients[i].(username := tokens[2], role := tokens[1])), Enrolled(tokens[2]))
  }

  /** Adding delta of ingredient k, to the stock and to one spellbook alike. */
  function Moved(h: Hall, i: nat, k: nat, delta: int): Hall
    requires Shaped(h) && i < |h.clients| && h.clients[i].connected && k < |h.names|
  {
    var c := h.clients[i];
    SetClient(h, i, c.(book := c.book[k := c.book[k] + delta])).(stock := h.stock[k := h.stock[k] + delta])
  }

  function Brew(h: Hall, i: nat, tokens: seq<string>): Result
    requires Shaped(h) && i < |h.clients| && h.clients[i].connected && tokens != []
  {
    if h.clients[i].role != "WIZARD" then Result(h, Unauthorized)
    else if |tokens| != 3 || ParsePositive(tokens[2]).None? then Result(h, Unknown(tokens[0]))
    else
      match FindIngredient(h.names, tokens[1])
      case None => Result(h, UnknownIngredient)
      case Some(k) =>
        var qty := ParsePositive(tokens[2]).value;
        Result(Moved(h, i, k, qty), Brewed(h.names[k], qty, h.stock[k] + qty))
  }

  function Consume(h: Hall, i: nat, tokens: seq<string>): Result
    requires Shaped(h) && i < |h.clients| && h.clients[i].connected && tokens != []
  {
    if h.clients[i].role != "WIZARD" then Result(h, Unauthorized)
    else if |tokens| != 3 || ParsePositive(tokens[2]).None? then Result(h, Unknown(tokens[0]))
    else
      match FindIngredient(h.names, tokens[1])
      case None => Result(h, UnknownIngredient)
      case Some(k) =>
        var qty := ParsePositive(tokens[2]).value;
        if h.stock[k] < qty || h.clients[i].book[k] < qty then Result(h, Insufficient)
        else Result(Moved(h, i, k, -qty), Consumed(h.names[k], qty, h.stock[k] - qty))
  }

  function EnrolledNames(clients: seq<Client>): seq<string> {
    if clients == [] then []
    else
      var n := |clients| - 1;
      EnrolledNames(clients[..n]) + if clients[n].connected && clients[n].username != "" then [clients[n].username] else []
  }

  /** The commands that only report. */
  function Report(h: Hall, i: nat, tokens: seq<string>): Reply
    requires Shaped(h) && i < |h.clients| && h.clients[i].connected && tokens != []
  {
    var c := h.clients[i];
    if tokens[0] == "SPELLBOOK" then
      if c.role != "WIZARD" then Unauthorized else if |tokens| != 1 then Unknown(tokens[0]) else Spellbook(c.book)
    else if tokens[0] == "INSPECT" then
      if c.role != "PROFESSOR" then Unauthorized
      else if |tokens| != 2 then Unknown(tokens[0])
      else
        match FindIngredient(h.names, tokens[1])
        case None => UnknownIngredient
        case Some(k) => Inspected(h.names[k], h.stock[k])
    else if tokens[0] == "SCROLL" then
      if c.role != "PROFESSOR" then Unauthorized else if |tokens| != 1 then Unknown(tokens[0]) else Scroll(h.stock)
    else if tokens[0] == "ROSTER" then
      if c.role != "PROFESSOR" then Unauthorized else if |tokens| != 1 then Unknown(tokens[0]) else Roster(EnrolledNames(h.clients))
    else Unknown(tokens[0])
  }

  function Added(a: seq<int>, b: seq<int>): seq<int>
    requires |a| == |b|
  {
    seq(|a|, k requires 0 <= k < |a| => a[k] + b[k])
  }

  /** Disconnecting drops the spellbook; what it held stays in the stock. */
  function Disconnected(h: Hall, i: nat): Hall
    requires Shaped(h) && i < |h.clients|
  {
    if !h.clients[i].connected then h
    else SetClient(h, i, NOBODY).(lost := Added(h.lost, h.clients[i].book))
  }

  /** One command line of client i. */
  function Process(h: Hall, i: nat, line: string, now: int): Result
    requires Shaped(h) && i < |h.clients| && h.clients[i].connected
  {
    var h0 := SetClient(h, i, h.clients[i].(lastActive := now));
    var tokens := Tokens(line, MAX_TOKENS);
    if tokens == [] then Result(h0, Silent)
    else if tokens[0] == "ENROLL" then Enroll(h0, i, tokens)
    else if h.clients[i].username == "" then Result(h0, NotEnrolled)
    else if tokens[0] == "APPARATE" then
      if |tokens| != 1 then Result(h0, Unknown(tokens[0])) else Result(Disconnected(h0, i), Apparated)
    else if tokens[0] == "BREW" then Brew(h0, i, tokens)
    else if tokens[0] == "CONSUME" then Consume(h0, i, tokens)
    else Result(h0, Report(h0, i, tokens))
  }

  /** The first free slot, or the number of slots. */
  function FreeSlot(clients: seq<Client>): (k: nat)
    ensures k <= |clients| && (k < |clients| ==> !clients[k].connected)
    ensures forall i :: 0 <= i < k ==> clients[i].connected
  {
    if clients == [] then 0
    else
      var n := |clients| - 1;
      var k := FreeSlot(clients[..n]);
      if k < n then k else if !clients[n].connected then n else |clients|
  }

  function Accepted(h: Hall, now: int): Hall {
    var k := FreeSlot(h.clients);
    if k == |h.clients| then h
    else SetClient(h, k, h.clients[k].(connected := true, book := seq(|h.names|, _ => 0), lastActive := now))
  }

  function ExpiredOne(h: Hall, i: nat, now: int, timeout: int): (r: Hall)
    requires Shaped(h) && i < |h.clients|
    ensures Shaped(r) && |r.clients| == |h.clients| && r.names == h.names && r.stock == h.stock
    ensures forall j :: 0 <= j < |h.clients| && j != i ==> r.clients[j] == h.clients[j]
  {
    if h.clients[i].connected && now - h.clients[i].lastActive >= timeout then Disconnected(h, i) else h
  }

  /** Disconnecting, among the first n slots, the clients that have been silent for the timeout. */
  function Expired(h: Hall, n: nat, now: int, timeout: int): (r: Hall)
    requires Shaped(h) && n <= |h.clients|
    ensures Shaped(r) && |r.clients| == |h.clients| && r.names == h.names && r.stock == h.stock
    ensures forall i :: n <= i < |h.clients| ==> r.clients[i] == h.clients[i]
  {
    if n == 0 then h
    else
      ExpiredOne(Expired(h, n - 1, now, timeout), n - 1, now, timeout)
  }

  datatype Step = Accept(now: int) | Line(i: nat, line: string, now: int) | Hangup(i: nat) | Timeouts(now: int, timeout: int)

  predicate Enabled(h: Hall, step: Step) {
    Shaped(h) && (step.Line? ==> step.i < |h.clients| && h.clients[step.i].connected) && (step.Hangup? ==> step.i < |h.clients|)
  }

  function Apply(h: Hall, step: Step): Hall
    requires Enabled(h, step)
  {
    match step
    case Accept(now) => Accepted(h, now)
    case Line(i, line, now) => Process(h, i, line, now).hall
    case Hangup(i) => Disconnected(h, i)
    case Timeouts(now, timeout) => Expired(h, |h.clients|, now, timeout)
  }

  // ----- the inventory law

  /** All live spellbooks' holdings of ingredient k. */
  function Held(clients: seq<Client>, k: nat): int {
    if clients == [] then 0 else Held(clients[..|clients| - 1], k) + InBook(clients[|clients| - 1], k)
  }

  function InBook(c: Client, k: nat): int {
    if k < |c.book| then c.book[k] else 0
  }

  lemma {:induction false} HeldChange(clients: seq<Client>, i: nat, c: Client, k: nat)
    requires i < |clients|
    ensures Held(clients[i := c], k) == Held(clients, k) - InBook(clients[i], k) + InBook(c, k)
  {
    var n := |clients| - 1;
    if i == n {
      assert clients[i := c][..n] == clients[..n];
    } else {
      assert clients[i := c][..n] == clients[..n][i := c];
      HeldChange(clients[..n], i, c, k);
    }
  }

  lemma {:induction false} HeldNatural(clients: seq<Client>, k: nat)
    requires forall i :: 0 <= i < |clients| ==> InBook(clients[i], k) >= 0
    ensures Held(clients, k) >= 0
    ensures forall i :: 0 <= i < |clients| ==> InBook(clients[i], k) <= Held(clients, k)
  {
    if clients != [] {
      HeldNatural(clients[..|clients| - 1], k);
    }
  }

  ghost predicate ClientOk(c: Client) {
    && (!c.connected ==> c == NOBODY.(lastActive := c.lastActive))
    && (c.role == "" || c.role == "WIZARD" || c.role == "PROFESSOR") && (c.role == "" <==> c.username == "")
    && (forall k :: 0 <= k < |c.book| ==> c.book[k] >= 0 && (c.role != "WIZARD" ==> c.book[k] == 0))
  }

  /** Stock, spellbooks and losses agree; nothing is negative; names are given once. */
  ghost predicate Law(initial: seq<int>, h: Hall) {
    && Shaped(h) && |initial| == |h.names|
    && (forall i :: 0 <= i < |h.clients| ==> ClientOk(h.clients[i]))
    && (forall k :: 0 <= k < |h.names| ==> h.stock[k] == initial[k] + h.lost[k] + Held(h.clients, k) && h.lost[k] >= 0)
    && DistinctNames(h.clients)
  }

  ghost predicate DistinctNames(clients: seq<Client>) {
    forall i, j :: 0 <= i < j < |clients| && clients[i].username != "" ==> clients[i].username != clients[j].username
  }

  /** Only the fields outside the law change. */
  lemma LawTouch(initial: seq<int>, h: Hall, i: nat, now: int)
    requires Law(initial, h) && i < |h.clients|
    ensures Law(initial, SetClient(h, i, h.clients[i].(lastActive := now)))
  {
    forall k | 0 <= k < |h.names|
      ensures Held(h.clients[i := h.clients[i].(lastActive := now)], k) == Held(h.clients, k)
    {
      HeldChange(h.clients, i, h.clients[i].(lastActive := now), k);
    }
  }

  lemma LawEnroll(initial: seq<int>, h: Hall, i: nat, tokens: seq<string>)
    requires Law(initial, h) && i < |h.clients| && h.clients[i].connected
    ensures Law(initial, Enroll(h, i, tokens).hall)
  {
    var r := Enroll(h, i, tokens);
    if r.reply.Enrolled? {
      var c := r.hall.clients[i];
      forall k | 0 <= k < |h.names|
        ensures Held(r.hall.clients, k) == Held(h.clients, k)
      {
        HeldChange(h.clients, i, c, k);
      }
      forall j | 0 <= j < |h.clients|
        ensures h.clients[j].username != tokens[2]
      {
        assert ClientOk(h.clients[j]);
      }
    }
  }

  lemma LawMoved(initial: seq<int>, h: Hall, i: nat, k: nat, delta: int)
    requires Law(initial, h) && i < |h.clients| && h.clients[i].connected && k < |h.names|
    requires h.clients[i].role == "WIZARD" && h.clients[i].book[k] + delta >= 0
    ensures Law(initial, Moved(h, i, k, delta))
  {
    var h' := Moved(h, i, k, delta);
    forall j | 0 <= j < |h.names|
      ensures Held(h'.clients, j) == Held(h.clients, j) + if j == k then delta else 0
    {
      HeldChange(h.clients, i, h'.clients[i], j);
    }
  }

  lemma LawDisconnected(initial: seq<int>, h: Hall, i: nat)
    requires Law(initial, h) && i < |h.clients|
    ensures Law(initial, Disconnected(h, i))
  {
    if h.clients[i].connected {
      forall k | 0 <= k < |h.names|
        ensures Held(h.clients[i := NOBODY], k) == Held(h.clients, k) - h.clients[i].book[k]
      {
        HeldChange(h.clients, i, NOBODY, k);
      }
    }
  }

  lemma LawAccepted(initial: seq<int>, h: Hall, now: int)
    requires Law(initial, h)
    ensures Law(initial, Accepted(h, now))
  {
    var i := FreeSlot(h.clients);
    if i < |h.clients| {
      var h' := Accepted(h, now);
      forall k | 0 <= k < |h.names|
        ensures Held(h'.clients, k) == Held(h.clients, k)
      {
        HeldChange(h.clients, i, h'.clients[i], k);
      }
    }
  }

  lemma LawExpiredOne(initial: seq<int>, h: Hall, n: nat, now: int, timeout: int)
    requires Shaped(h) && 0 < n <= |h.clients| && Law(initial, Expired(h, n - 1, now, timeout))
    ensures Law(initial, Expired(h, n, now, timeout))
  {
    LawDisconnected(initial, Expired(h, n - 1, now, timeout), n - 1);
  }

  lemma {:induction false} LawExpired(initial: seq<int>, h: Hall, n: nat, now: int, timeout: int)
    requires Law(initial, h) && n <= |h.clients|
    ensures Law(initial, Expired(h, n, now, timeout))
  {
    if n > 0 {
      LawExpired(initial, h, n - 1, now, timeout);
      LawExpiredOne(initial, h, n, now, timeout);
    }
  }

  lemma LawBrew(initial: seq<int>, h: Hall, i: nat, tokens: seq<string>)
    requires Law(initial, h) && i < |h.clients| && h.clients[i].connected && tokens != []
    ensures Law(initial, Brew(h, i, tokens).hall)
  {
    assert ClientOk(h.clients[i]);
    if Brew(h, i, tokens).reply.Brewed? {
      LawMoved(initial, h, i, FindIngredient(h.names, tokens[1]).value, ParsePositive(tokens[2]).value);
    }
  }

  lemma LawConsume(initial: seq<int>, h: Hall, i: nat, tokens: seq<string>)
    requires Law(initial, h) && i < |h.clients| && h.clients[i].connected && tokens != []
    ensures Law(initial, Consume(h, i, tokens).hall)
  {
    if Consume(h, i, tokens).reply.Consumed? {
      LawMoved(initial, h, i, FindIngredient(h.names, tokens[1]).value, -ParsePositive(tokens[2]).value);
    }
  }

  lemma LawProcess(initial: seq<int>, h: Hall, i: nat, line: string, now: int)
    requires Law(initial, h) && i < |h.clients| && h.clients[i].connected
    ensures Law(initial, Process(h, i, line, now).hall)
  {
    var h0 := SetClient(h, i, h.clients[i].(lastActive := now));
    LawTouch(initial, h, i, now);
    var tokens := Tokens(line, MAX_TOKENS);
    LawEnroll(initial, h0, i, tokens);
    LawDisconnected(initial, h0, i);
    if tokens != [] {
      LawBrew(initial, h0, i, tokens);
      LawConsume(initial, h0, i, tokens);
    }
  }

  lemma StepKeepsLaw(initial: seq<int>, h: Hall, step: Step)
    requires Law(initial, h) && Enabled(h, step)
    ensures Law(initial, Apply(h, step))
  {
    match step
    case Accept(now) => LawAccepted(initial, h, now);
    case Line(i, line, now) => LawProcess(initial, h, i, line, now);
    case Hangup(i) => LawDisconnected(initial, h, i);
    case Timeouts(now, timeout) => LawExpired(initial, h, |h.clients|, now, timeout);
  }

  /** The hall as the server opens it: the loaded stock and only free slots. */
  ghost predicate Init(initial: seq<int>, h: Hall) {
    && |h.names| == |h.stock| == |h.lost| && h.stock == initial
    && (forall k :: 0 <= k < |h.lost| ==> h.lost[k] == 0)
    && forall i :: 0 <= i < |h.clients| ==> h.clients[i] == NOBODY
  }

  ghost predicate Run(initial: seq<int>, halls: seq<Hall>, steps: seq<Step>) {
    && |halls| == |steps| + 1 && Init(initial, halls[0])
    && forall i :: 0 <= i < |steps| ==> Leads(halls[i], steps[i], halls[i + 1])
  }

  ghost predicate Leads(h: Hall, step: Step, h': Hall) {
    Enabled(h, step) && h' == Apply(h, step)
  }

  lemma {:induction false} NothingHeld(clients: seq<Client>, k: nat)
    requires forall i :: 0 <= i < |clients| ==> clients[i] == NOBODY
    ensures Held(clients, k) == 0
  {
    if clients != [] {
      NothingHeld(clients[..|clients| - 1], k);
    }
  }

  /** The inventory law holds after every sequence of commands, disconnections and timeouts. */
  lemma {:induction false} RunKeepsLaw(initial: seq<int>, halls: seq<Hall>, steps: seq<Step>, n: nat)
    requires Run(initial, halls, steps) && n < |halls|
    ensures Law(initial, halls[n])
  {
    if n == 0 {
      forall k | 0 <= k < |halls[0].names|
        ensures Held(halls[0].clients, k) == 0
      {
        NothingHeld(halls[0].clients, k);
      }
    } else {
      RunKeepsLaw(initial, halls, steps, n - 1);
      assert Leads(halls[n - 1], steps[n - 1], halls[n]);
      StepKeepsLaw(initial, halls[n - 1], steps[n - 1]);
    }
  }

  /** No stock ever falls below its initial quantity, and it covers every single spellbook above that. */
  lemma NeverBelowInitial(initial: seq<int>, halls: seq<Hall>, steps: seq<Step>, n: nat, k: nat)
    requires Run(initial, halls, steps) && n < |halls| && k < |halls[n].names|
    ensures |initial| == |halls[n].names| == |halls[n].stock| && halls[n].stock[k] >= initial[k]
    ensures forall i :: 0 <= i < |halls[n].clients| ==> 0 <= InBook(halls[n].clients[i], k) <= halls[n].stock[k] - initial[k]
  {
    RunKeepsLaw(initial, halls, steps, n);
    var h := halls[n];
    forall i | 0 <= i < |h.clients|
      ensures InBook(h.clients[i], k) >= 0
    {
      assert ClientOk(h.clients[i]);
    }
    HeldNatural(h.clients, k);
  }

  /** Usernames of connected, enrolled clients are distinct. */
  lemma NamesStayDistinct(initial: seq<int>, halls: seq<Hall>, steps: seq<Step>, n: nat, i: nat, j: nat)
    requires Run(initial, halls, steps) && n < |halls| && i < |halls[n].clients| && j < |halls[n].clients| && i != j
    requires halls[n].clients[i].username != ""
    ensures halls[n].clients[i].connected && halls[n].clients[i].username != halls[n].clients[j].username
  {
    RunKeepsLaw(initial, halls, steps, n);
    assert ClientOk(halls[n].clients[i]);
    assert DistinctNames(halls[n].clients);
  }

  /** A CONSUME fails for want of ingredients exactly when the wizard's own spellbook is short: the shared
      stock alone never refuses. */
  lemma OnlyTheBookRefuses(initial: seq<int>, h: Hall, i: nat, tokens: seq<string>, k: nat)
    requires Law(initial, h) && (forall j :: 0 <= j < |initial| ==> initial[j] >= 0)
    requires i < |h.clients| && h.clients[i].connected && h.clients[i].role == "WIZARD"
    requires |tokens| == 3 && ParsePositive(tokens[2]).Some? && FindIngredient(h.names, tokens[1]) == Some(k)
    ensures Consume(h, i, tokens).reply.Insufficient? <==> h.clients[i].book[k] < ParsePositive(tokens[2]).value
  {
    forall j | 0 <= j < |h.clients|
      ensures InBook(h.clients[j], k) >= 0
    {
      assert ClientOk(h.clients[j]);
    }
    HeldNatural(h.clients, k);
    assert InBook(h.clients[i], k) == h.clients[i].book[k];
  }

  /** Consuming what was just brewed restores stock, spellbook and everything else. */
  lemma ConsumeUndoesBrew(initial: seq<int>, h: Hall, i: nat, tokens: seq<string>)
    requires Law(initial, h) && (forall j :: 0 <= j < |initial| ==> initial[j] >= 0)
    requires i < |h.clients| && h.clients[i].connected && tokens != [] && Brew(h, i, tokens).reply.Brewed?
    ensures Shaped(Brew(h, i, tokens).hall) && Brew(h, i, tokens).hall.clients[i].connected
    ensures Consume(Brew(h, i, tokens).hall, i, tokens).reply.Consumed?
    ensures Consume(Brew(h, i, tokens).hall, i, tokens).hall == h
  {
    var k := FindIngredient(h.names, tokens[1]).value;
    var qty := ParsePositive(tokens[2]).value;
    var brewed := Brew(h, i, tokens).hall;
    assert ClientOk(h.clients[i]);
    LawMoved(initial, h, i, k, qty);
    OnlyTheBookRefuses(initial, brewed, i, tokens, k);
    var back := Moved(brewed, i, k, -qty);
    assert back.clients[i].book == h.clients[i].book;
    assert back.clients == h.clients && back.stock == h.stock;
  }
}
