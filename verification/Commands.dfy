/** What the commands promise, by the words of a line and the fields of the tables alone.
    HW6/hogwarts.c:287-521. */
module Commands {
  import opened Basics
  import opened Inventory

  // ----- the words of a line

  predicate Blank(ch: char) {
    ch in " \t\r\n"
  }

  datatype Span = Span(from: nat, to: nat)

  /** A word is a maximal run of characters that are not blank; the line ends at a NUL. */
  ghost predicate WordAt(line: string, at: Span) {
    && at.from < at.to <= |line|
    && (forall k :: 0 <= k < at.to ==> line[k] != '\0') && (forall k :: at.from <= k < at.to ==> !Blank(line[k]))
    && (at.from == 0 || Blank(line[at.from - 1]))
    && (at.to == |line| || Blank(line[at.to]) || line[at.to] == '\0')
  }

  /** These are the line's first n words, in order. */
  ghost predicate WordsAt(line: string, n: nat, words: seq<string>, at: seq<Span>) {
    && |at| == |words| <= n
    && (forall i :: 0 <= i < |at| ==> WordAt(line, at[i]) && words[i] == line[at[i].from..at[i].to])
    && (forall i, j :: 0 <= i < j < |at| ==> at[i].to < at[j].from)
    && forall w: Span :: WordAt(line, w) ==> Known(n, at, w)
  }

  /** One of the words cut, or behind all n of them. */
  ghost predicate Known(n: nat, at: seq<Span>, w: Span) {
    w in at || (|at| == n && forall i :: 0 <= i < |at| ==> at[i].to < w.from)
  }

  ghost predicate FirstWords(line: string, n: nat, words: seq<string>) {
    exists at: seq<Span> :: WordsAt(line, n, words, at)
  }

  function Later(w: Span, k: nat): Span {
    Span(w.from + k, w.to + k)
  }

  function AllLater(at: seq<Span>, k: nat): (r: seq<Span>)
    ensures |r| == |at| && forall i :: 0 <= i < |at| ==> r[i] == Later(at[i], k)
  {
    seq(|at|, i requires 0 <= i < |at| => Later(at[i], k))
  }

  lemma BlankSeparates(ch: char)
    ensures Blank(ch) <==> Separator(ch)
  {
    assert " \t\r\n"[0] == ' ' && " \t\r\n"[1] == '\t' && " \t\r\n"[2] == '\r' && " \t\r\n"[3] == '\n';
  }

  /** Words of the rest of a line are words of the line. */
  lemma WordLater(line: string, k: nat, w: Span)
    requires k <= |line| && forall i :: 0 <= i < k ==> line[i] != '\0'
    requires k == 0 || Blank(line[k - 1]) || w.from > 0
    ensures WordAt(line, Later(w, k)) <==> WordAt(line[k..], w)
  {
    if WordAt(line, Later(w, k)) {
      WordInRest(line, k, w);
    }
    if WordAt(line[k..], w) {
      WordInLine(line, k, w);
    }
  }

  lemma WordInRest(line: string, k: nat, w: Span)
    requires k <= |line| && WordAt(line, Later(w, k))
    ensures WordAt(line[k..], w)
  {
    var rest := line[k..];
    forall i | 0 <= i < w.to
      ensures rest[i] != '\0' && (i >= w.from ==> !Blank(rest[i]))
    {
      assert rest[i] == line[i + k];
    }
  }

  lemma WordInLine(line: string, k: nat, w: Span)
    requires k <= |line| && forall i :: 0 <= i < k ==> line[i] != '\0'
    requires k == 0 || Blank(line[k - 1]) || w.from > 0
    requires WordAt(line[k..], w)
    ensures WordAt(line, Later(w, k))
  {
    var rest := line[k..];
    forall i | k <= i < w.to + k
      ensures line[i] != '\0' && (i >= w.from + k ==> !Blank(line[i]))
    {
      assert line[i] == rest[i - k];
    }
  }

  lemma KnownLater(n: nat, at: seq<Span>, k: nat, w: Span)
    requires Known(n, at, w)
    ensures Known(n, AllLater(at, k), Later(w, k))
    ensures Known(n + 1, [Span(0, k)] + AllLater(at, k), Later(w, k)) || w.from == 0
  {
    var later := AllLater(at, k);
    if w in at {
      var i :| 0 <= i < |at| && at[i] == w;
      assert later[i] == Later(w, k);
      assert ([Span(0, k)] + later)[i + 1] == Later(w, k);
    }
  }

  lemma {:induction false} TokensAreWords(line: string, n: nat) returns (at: seq<Span>)
    ensures WordsAt(line, n, Tokens(line, n), at)
  {
    at := [];
    if n > 0 && line != [] && line[0] != '\0' {
      BlankSeparates(line[0]);
      if Blank(line[0]) {
        var rest := TokensAreWords(line[1..], n);
        at := AllLater(rest, 1);
        Skipped(line, n, Tokens(line[1..], n), rest);
      } else {
        var k := WordEnd(line, 0);
        FirstWord(line, k);
        var rest := TokensAreWords(line[k..], n - 1);
        at := [Span(0, k)] + AllLater(rest, k);
        Taken(line, n, k, Tokens(line[k..], n - 1), rest);
      }
    }
  }

  lemma FirstWord(line: string, k: nat)
    requires k == WordEnd(line, 0) && k > 0
    ensures WordAt(line, Span(0, k))
  {
    forall i | 0 <= i < |line|
      ensures Blank(line[i]) <==> Separator(line[i])
    {
      BlankSeparates(line[i]);
    }
  }

  lemma Skipped(line: string, n: nat, words: seq<string>, rest: seq<Span>)
    requires line != [] && line[0] != '\0' && Blank(line[0]) && WordsAt(line[1..], n, words, rest)
    ensures WordsAt(line, n, words, AllLater(rest, 1))
  {
    forall i | 0 <= i < |rest|
      ensures WordAt(line, Later(rest[i], 1)) && words[i] == line[rest[i].from + 1..rest[i].to + 1]
    {
      WordLater(line, 1, rest[i]);
    }
    forall w: Span | WordAt(line, w)
      ensures Known(n, AllLater(rest, 1), w)
    {
      SkippedKnown(line, n, rest, w);
    }
  }

  lemma SkippedKnown(line: string, n: nat, rest: seq<Span>, w: Span)
    requires line != [] && line[0] != '\0' && Blank(line[0]) && WordAt(line, w)
    requires forall v: Span :: WordAt(line[1..], v) ==> Known(n, rest, v)
    ensures Known(n, AllLater(rest, 1), w)
  {
    assert w.from > 0;
    var v := Span(w.from - 1, w.to - 1);
    WordLater(line, 1, v);
    KnownLater(n, rest, 1, v);
  }

  lemma Taken(line: string, n: nat, k: nat, words: seq<string>, rest: seq<Span>)
    requires n > 0 && WordAt(line, Span(0, k)) && WordsAt(line[k..], n - 1, words, rest)
    ensures WordsAt(line, n, [line[..k]] + words, [Span(0, k)] + AllLater(rest, k))
  {
    TakenCut(line, k, words, rest);
    TakenInOrder(line, k, words, rest);
    forall w: Span | WordAt(line, w)
      ensures Known(n, [Span(0, k)] + AllLater(rest, k), w)
    {
      TakenKnown(line, n, k, words, rest, w);
    }
  }

  lemma TakenCut(line: string, k: nat, words: seq<string>, rest: seq<Span>)
    requires WordAt(line, Span(0, k)) && |rest| == |words|
    requires forall i :: 0 <= i < |rest| ==> WordAt(line[k..], rest[i]) && words[i] == line[k..][rest[i].from..rest[i].to]
    ensures var at, all := [Span(0, k)] + AllLater(rest, k), [line[..k]] + words;
            forall i :: 0 <= i < |at| ==> WordAt(line, at[i]) && all[i] == line[at[i].from..at[i].to]
  {
    forall i | 0 <= i < |rest|
      ensures WordAt(line, Later(rest[i], k)) && words[i] == line[rest[i].from + k..rest[i].to + k]
    {
      TakenWord(line, k, rest[i]);
    }
  }

  lemma TakenWord(line: string, k: nat, w: Span)
    requires WordAt(line, Span(0, k)) && WordAt(line[k..], w)
    ensures WordAt(line, Later(w, k)) && line[k..][w.from..w.to] == line[w.from + k..w.to + k]
  {
    NoneAtOnce(line, k, w);
    WordInLine(line, k, w);
  }

  lemma TakenInOrder(line: string, k: nat, words: seq<string>, rest: seq<Span>)
    requires WordAt(line, Span(0, k)) && forall i :: 0 <= i < |rest| ==> WordAt(line[k..], rest[i])
    requires forall i, j :: 0 <= i < j < |rest| ==> rest[i].to < rest[j].from
    ensures var at := [Span(0, k)] + AllLater(rest, k); forall i, j :: 0 <= i < j < |at| ==> at[i].to < at[j].from
  {
    forall j | 0 <= j < |rest|
      ensures rest[j].from > 0
    {
      NoneAtOnce(line, k, rest[j]);
    }
  }

  /** What follows a word does not begin with one. */
  lemma NoneAtOnce(line: string, k: nat, w: Span)
    requires WordAt(line, Span(0, k)) && WordAt(line[k..], w)
    ensures w.from > 0
  {
    assert line[k..][0] == line[k];
  }

  lemma TakenKnown(line: string, n: nat, k: nat, words: seq<string>, rest: seq<Span>, w: Span)
    requires n > 0 && WordAt(line, Span(0, k)) && WordAt(line, w)
    requires forall v: Span :: WordAt(line[k..], v) ==> Known(n - 1, rest, v)
    ensures Known(n, [Span(0, k)] + AllLater(rest, k), w)
  {
    var at := [Span(0, k)] + AllLater(rest, k);
    WordsApart(line, Span(0, k), w);
    if w.from == 0 {
      assert at[0] == w;
    } else {
      var v := Span(w.from - k, w.to - k);
      WordLater(line, k, v);
      KnownLater(n - 1, rest, k, v);
    }
  }

  /** Two words are the same or apart. */
  lemma WordsApart(line: string, v: Span, w: Span)
    requires WordAt(line, v) && WordAt(line, w) && v.from <= w.from
    ensures v == w || v.to < w.from
  {
  }

  // ----- the tables before and after

  /** Nothing changes but the time at which client i was last heard. */
  ghost predicate Untouched(h: Hall, i: nat, now: int, h': Hall) {
    && h'.names == h.names && h'.stock == h.stock && h'.lost == h.lost
    && |h'.clients| == |h.clients| && i < |h.clients|
    && (forall j :: 0 <= j < |h.clients| && j != i ==> h'.clients[j] == h.clients[j])
    && var c, c' := h.clients[i], h'.clients[i];
       && c'.connected == c.connected && c'.username == c.username && c'.role == c.role && c'.book == c.book
       && c'.lastActive == now
  }

  ghost predicate SameBut(a: seq<int>, b: seq<int>, k: nat, delta: int) {
    && |a| == |b| && k < |a| && b[k] == a[k] + delta
    && forall j :: 0 <= j < |a| && j != k ==> b[j] == a[j]
  }

  /** The stock and client i's own spellbook change by the same quantity of ingredient k, nothing else does. */
  ghost predicate Shifted(h: Hall, i: nat, now: int, k: nat, delta: int, h': Hall) {
    && h'.names == h.names && h'.lost == h.lost && SameBut(h.stock, h'.stock, k, delta)
    && |h'.clients| == |h.clients| && i < |h.clients|
    && (forall j :: 0 <= j < |h.clients| && j != i ==> h'.clients[j] == h.clients[j])
    && var c, c' := h.clients[i], h'.clients[i];
       && c'.connected == c.connected && c'.username == c.username && c'.role == c.role
       && SameBut(c.book, c'.book, k, delta) && c'.lastActive == now
  }

  /** Only the name and the role of client i are new. */
  ghost predicate Named(h: Hall, i: nat, now: int, username: string, role: string, h': Hall) {
    && h'.names == h.names && h'.stock == h.stock && h'.lost == h.lost
    && |h'.clients| == |h.clients| && i < |h.clients|
    && (forall j :: 0 <= j < |h.clients| && j != i ==> h'.clients[j] == h.clients[j])
    && var c, c' := h.clients[i], h'.clients[i];
       && c'.connected == c.connected && c'.username == username && c'.role == role && c'.book == c.book
       && c'.lastActive == now
  }

  /** Client i's slot is free again; the stock keeps what its spellbook held. */
  ghost predicate Gone(h: Hall, i: nat, h': Hall) {
    && h'.names == h.names && h'.stock == h.stock
    && |h'.clients| == |h.clients| && i < |h.clients|
    && (forall j :: 0 <= j < |h.clients| && j != i ==> h'.clients[j] == h.clients[j])
    && h'.clients[i] == Client(false, "", "", [], 0)
    && |h'.lost| == |h.lost| == |h.clients[i].book|
    && forall k :: 0 <= k < |h.lost| ==> h'.lost[k] == h.lost[k] + h.clients[i].book[k]
  }

  // ----- the commands

  /** The text spells a quantity that the server accepts. */
  ghost predicate Quantity(text: string, n: int) {
    Spells(text, n) && 1 <= n <= 2147483647
  }

  ghost predicate NoQuantity(text: string) {
    forall n :: !Quantity(text, n)
  }

  /** The first ingredient of that name. */
  ghost predicate Ingredient(names: seq<string>, name: string, k: nat) {
    k < |names| && names[k] == name && forall j :: 0 <= j < k ==> names[j] != name
  }

  ghost predicate ProperName(s: string) {
    1 <= |s| <= 31 && forall i :: 0 <= i < |s| ==>
      'a' <= s[i] <= 'z' || 'A' <= s[i] <= 'Z' || '0' <= s[i] <= '9' || s[i] == '_'
  }

  ghost predicate Enrolls(h: Hall, i: nat, words: seq<string>, now: int, h': Hall, reply: Reply)
    requires i < |h.clients|
  {
    if |words| != 3 || (words[1] != "WIZARD" && words[1] != "PROFESSOR") || !ProperName(words[2]) then
      Untouched(h, i, now, h') && reply == UnknownEnroll
    else if h.clients[i].username != ""
         || exists j :: 0 <= j < |h.clients| && h.clients[j].connected && h.clients[j].username == words[2] then
      Untouched(h, i, now, h') && reply == NameTaken
    else
      Named(h, i, now, words[2], words[1], h') && reply == Enrolled(words[2])
  }

  /** BREW adds to the stock and to the wizard's own spellbook. */
  ghost predicate Brews(h: Hall, i: nat, words: seq<string>, now: int, h': Hall, reply: Reply)
    requires i < |h.clients| && |h.stock| == |h.names|
  {
    if h.clients[i].role != "WIZARD" then Untouched(h, i, now, h') && reply == Unauthorized
    else if |words| != 3 || NoQuantity(words[2]) then Untouched(h, i, now, h') && reply == Unknown("BREW")
    else if words[1] !in h.names then Untouched(h, i, now, h') && reply == UnknownIngredient
    else
      exists k: nat, n: int :: Ingredient(h.names, words[1], k) && Quantity(words[2], n)
        && Shifted(h, i, now, k, n, h') && reply == Brewed(words[1], n, h.stock[k] + n)
  }

  /** CONSUME takes from both, or from neither when one of them is short. */
  ghost predicate Consumes(h: Hall, i: nat, words: seq<string>, now: int, h': Hall, reply: Reply)
    requires Shaped(h) && i < |h.clients| && h.clients[i].connected
  {
    if h.clients[i].role != "WIZARD" then Untouched(h, i, now, h') && reply == Unauthorized
    else if |words| != 3 || NoQuantity(words[2]) then Untouched(h, i, now, h') && reply == Unknown("CONSUME")
    else if words[1] !in h.names then Untouched(h, i, now, h') && reply == UnknownIngredient
    else
      exists k: nat, n: int :: Ingredient(h.names, words[1], k) && Quantity(words[2], n)
        && if h.stock[k] < n || h.clients[i].book[k] < n then Untouched(h, i, now, h') && reply == Insufficient
           else Shifted(h, i, now, k, -n, h') && reply == Consumed(words[1], n, h.stock[k] - n)
  }

  predicate Present(c: Client) {
    c.connected && c.username != ""
  }

  /** The names of the connected, enrolled clients in the order of their slots. */
  ghost predicate IsRoster(clients: seq<Client>, names: seq<string>, slots: seq<nat>) {
    && |slots| == |names|
    && (forall m :: 0 <= m < |slots| ==>
          slots[m] < |clients| && Present(clients[slots[m]]) && names[m] == clients[slots[m]].username)
    && (forall l, m :: 0 <= l < m < |slots| ==> slots[l] < slots[m])
    && forall j: nat :: j < |clients| && Present(clients[j]) ==> j in slots
  }

  ghost predicate ListsAll(clients: seq<Client>, reply: Reply) {
    reply.Roster? && exists slots: seq<nat> :: IsRoster(clients, reply.names, slots)
  }

  /** The commands that report, each for one role and with a fixed number of words; anything else is
      unknown. */
  ghost predicate Reports(h: Hall, i: nat, words: seq<string>, reply: Reply)
    requires i < |h.clients| && |h.stock| == |h.names| && words != []
  {
    if words[0] == "SPELLBOOK" then
      if h.clients[i].role != "WIZARD" then reply == Unauthorized
      else if |words| != 1 then reply == Unknown("SPELLBOOK")
      else reply == Spellbook(h.clients[i].book)
    else if words[0] !in ["INSPECT", "SCROLL", "ROSTER"] then reply == Unknown(words[0])
    else if h.clients[i].role != "PROFESSOR" then reply == Unauthorized
    else if |words| != (if words[0] == "INSPECT" then 2 else 1) then reply == Unknown(words[0])
    else if words[0] == "SCROLL" then reply == Scroll(h.stock)
    else if words[0] == "ROSTER" then ListsAll(h.clients, reply)
    else if words[1] !in h.names then reply == UnknownIngredient
    else exists k: nat :: Ingredient(h.names, words[1], k) && reply == Inspected(words[1], h.stock[k])
  }

  /** What the server does with a line of these words from client i. */
  ghost predicate Obeys(h: Hall, i: nat, words: seq<string>, now: int, h': Hall, reply: Reply)
    requires Shaped(h) && i < |h.clients| && h.clients[i].connected
  {
    if words == [] then Untouched(h, i, now, h') && reply == Silent
    else if words[0] == "ENROLL" then Enrolls(h, i, words, now, h', reply)
    else if h.clients[i].username == "" then Untouched(h, i, now, h') && reply == NotEnrolled
    else if words[0] == "APPARATE" then
      if |words| == 1 then Gone(h, i, h') && reply == Apparated
      else Untouched(h, i, now, h') && reply == Unknown("APPARATE")
    else if words[0] == "BREW" then Brews(h, i, words, now, h', reply)
    else if words[0] == "CONSUME" then Consumes(h, i, words, now, h', reply)
    else Untouched(h, i, now, h') && Reports(h, i, words, reply)
  }

  // ----- the model obeys

  lemma {:induction false} RosterSlots(clients: seq<Client>) returns (slots: seq<nat>)
    ensures IsRoster(clients, EnrolledNames(clients), slots)
  {
    slots := [];
    if clients != [] {
      var n := |clients| - 1;
      var before := RosterSlots(clients[..n]);
      RosterInFront(clients, EnrolledNames(clients[..n]), before);
      if Present(clients[n]) {
        RosterWith(clients, EnrolledNames(clients[..n]), before);
        slots := before + [n];
      } else {
        RosterWithout(clients, EnrolledNames(clients[..n]), before);
        slots := before;
        assert EnrolledNames(clients) == EnrolledNames(clients[..n]);
      }
    }
  }

  lemma RosterInFront(clients: seq<Client>, names: seq<string>, before: seq<nat>)
    requires clients != [] && IsRoster(clients[..|clients| - 1], names, before)
    ensures forall m :: 0 <= m < |before| ==>
              before[m] < |clients| - 1 && Present(clients[before[m]]) && names[m] == clients[before[m]].username
  {
    var front := clients[..|clients| - 1];
    forall m | 0 <= m < |before|
      ensures before[m] < |clients| - 1 && Present(clients[before[m]]) && names[m] == clients[before[m]].username
    {
      assert front[before[m]] == clients[before[m]];
    }
  }

  lemma RosterWith(clients: seq<Client>, names: seq<string>, before: seq<nat>)
    requires clients != [] && Present(clients[|clients| - 1]) && IsRoster(clients[..|clients| - 1], names, before)
    requires forall m :: 0 <= m < |before| ==>
               before[m] < |clients| - 1 && Present(clients[before[m]]) && names[m] == clients[before[m]].username
    ensures IsRoster(clients, names + [clients[|clients| - 1].username], before + [|clients| - 1])
  {
    var n := |clients| - 1;
    var slots := before + [n];
    assert slots[|before|] == n;
    forall j: nat | j < |clients| && Present(clients[j])
      ensures j in slots
    {
      if j < n {
        assert clients[..n][j] == clients[j] && j in before;
      }
    }
  }

  lemma RosterWithout(clients: seq<Client>, names: seq<string>, before: seq<nat>)
    requires clients != [] && !Present(clients[|clients| - 1]) && IsRoster(clients[..|clients| - 1], names, before)
    requires forall m :: 0 <= m < |before| ==>
               before[m] < |clients| - 1 && Present(clients[before[m]]) && names[m] == clients[before[m]].username
    ensures IsRoster(clients, names, before)
  {
    var n := |clients| - 1;
    forall j: nat | j < |clients| && Present(clients[j])
      ensures j in before
    {
      assert clients[..n][j] == clients[j];
    }
  }

  lemma QuantityParsed(text: string)
    ensures match ParsePositive(text)
            case None => NoQuantity(text)
            case Some(n) => Quantity(text, n)
  {
    forall n
      ensures Quantity(text, n) <==> ParsePositive(text) == Some(n)
    {
      ParsePositiveExact(text, n);
    }
  }

  lemma IngredientFound(names: seq<string>, name: string)
    ensures match FindIngredient(names, name)
            case None => name !in names
            case Some(k) => name in names && Ingredient(names, name, k)
  {
  }

  ghost function Heard(h: Hall, i: nat, now: int): Hall
    requires i < |h.clients|
  {
    SetClient(h, i, h.clients[i].(lastActive := now))
  }

  lemma EnrollObeys(h: Hall, i: nat, words: seq<string>, now: int)
    requires Shaped(h) && i < |h.clients| && h.clients[i].connected
    ensures var r := Enroll(Heard(h, i, now), i, words); Enrolls(h, i, words, now, r.hall, r.reply)
  {
  }

  lemma BrewObeys(h: Hall, i: nat, words: seq<string>, now: int)
    requires Shaped(h) && i < |h.clients| && h.clients[i].connected && words != [] && words[0] == "BREW"
    ensures var r := Brew(Heard(h, i, now), i, words); Brews(h, i, words, now, r.hall, r.reply)
  {
    if |words| == 3 {
      QuantityParsed(words[2]);
      IngredientFound(h.names, words[1]);
    }
  }

  lemma ConsumeObeys(h: Hall, i: nat, words: seq<string>, now: int)
    requires Shaped(h) && i < |h.clients| && h.clients[i].connected && words != [] && words[0] == "CONSUME"
    ensures var r := Consume(Heard(h, i, now), i, words); Consumes(h, i, words, now, r.hall, r.reply)
  {
    if |words| == 3 {
      QuantityParsed(words[2]);
      IngredientFound(h.names, words[1]);
    }
  }

  lemma ReportObeys(h: Hall, i: nat, words: seq<string>, now: int)
    requires Shaped(h) && i < |h.clients| && h.clients[i].connected && words != []
    ensures Reports(h, i, words, Report(Heard(h, i, now), i, words))
  {
    if |words| == 2 {
      IngredientFound(h.names, words[1]);
    }
    if words[0] == "ROSTER" && |words| == 1 {
      var slots := RosterSlots(Heard(h, i, now).clients);
      assert IsRoster(h.clients, EnrolledNames(Heard(h, i, now).clients), slots);
    }
  }

  lemma ApparateObeys(h: Hall, i: nat, now: int)
    requires Shaped(h) && i < |h.clients| && h.clients[i].connected
    ensures Gone(h, i, Disconnected(Heard(h, i, now), i)) && Untouched(h, i, now, Heard(h, i, now))
  {
  }

  lemma WordsObey(h: Hall, i: nat, line: string, words: seq<string>, now: int)
    requires Shaped(h) && i < |h.clients| && h.clients[i].connected && words == Tokens(line, MAX_TOKENS)
    ensures Obeys(h, i, words, now, Process(h, i, line, now).hall, Process(h, i, line, now).reply)
  {
    ApparateObeys(h, i, now);
    if words == [] {
      assert Process(h, i, line, now) == Result(Heard(h, i, now), Silent);
    } else if words[0] == "ENROLL" {
      EnrollObeys(h, i, words, now);
    } else if h.clients[i].username == "" || words[0] == "APPARATE" {
    } else if words[0] == "BREW" {
      BrewObeys(h, i, words, now);
    } else if words[0] == "CONSUME" {
      ConsumeObeys(h, i, words, now);
    } else {
      ReportObeys(h, i, words, now);
    }
  }

  /** A command line does what its words say, and its words are the first eight of the line. */
  lemma LineObeys(h: Hall, i: nat, line: string, now: int)
    requires Shaped(h) && i < |h.clients| && h.clients[i].connected
    ensures var r := Process(h, i, line, now);
            exists words :: FirstWords(line, 8, words) && Obeys(h, i, words, now, r.hall, r.reply)
  {
    var words := Tokens(line, MAX_TOKENS);
    var at := TokensAreWords(line, MAX_TOKENS);
    WordsObey(h, i, line, words, now);
    assert FirstWords(line, 8, words);
  }

  /** A wizard's CONSUME line is refused for want of ingredients exactly when its own spellbook is short. */
  lemma BookDecides(initial: seq<int>, h: Hall, i: nat, line: string, now: int, name: string, text: string, k: nat, n: int)
    requires Law(initial, h) && (forall j :: 0 <= j < |initial| ==> initial[j] >= 0)
    requires i < |h.clients| && h.clients[i].connected && h.clients[i].role == "WIZARD"
    requires Tokens(line, MAX_TOKENS) == ["CONSUME", name, text] && Ingredient(h.names, name, k) && Quantity(text, n)
    ensures Process(h, i, line, now).reply.Insufficient? <==> h.clients[i].book[k] < n
  {
    assert ClientOk(h.clients[i]);
    LawTouch(initial, h, i, now);
    ParsePositiveExact(text, n);
    IngredientFound(h.names, name);
    OnlyTheBookRefuses(initial, Heard(h, i, now), i, ["CONSUME", name, text], k);
  }

  /** A BREW line and the CONSUME line of the same quantity together change nothing. */
  lemma LinesUndo(initial: seq<int>, h: Hall, i: nat, brew: string, consume: string, name: string, text: string, now: int, later: int)
    requires Law(initial, h) && (forall j :: 0 <= j < |initial| ==> initial[j] >= 0)
    requires i < |h.clients| && h.clients[i].connected
    requires Tokens(brew, MAX_TOKENS) == ["BREW", name, text] && Tokens(consume, MAX_TOKENS) == ["CONSUME", name, text]
    requires Process(h, i, brew, now).reply.Brewed?
    ensures var after := Process(h, i, brew, now).hall;
            && Shaped(after) && after.clients[i].connected
            && Process(after, i, consume, later).reply.Consumed?
            && Untouched(h, i, later, Process(after, i, consume, later).hall)
  {
    var words := ["BREW", name, text];
    var late := Heard(h, i, later);
    BrewLine(h, i, brew, words, now, later);
    LawTouch(initial, h, i, later);
    ConsumeUndoesBrew(initial, late, i, words);
    ConsumeLine(Process(h, i, brew, now).hall, Brew(late, i, words).hall, i, consume, name, text, later);
    assert Untouched(h, i, later, late);
  }

  /** A BREW line and then the mere passing of time are the brewing at the later time. */
  lemma BrewLine(h: Hall, i: nat, line: string, words: seq<string>, now: int, later: int)
    requires Shaped(h) && i < |h.clients| && h.clients[i].connected
    requires words == Tokens(line, MAX_TOKENS) && words != [] && words[0] == "BREW" && Process(h, i, line, now).reply.Brewed?
    ensures var after := Process(h, i, line, now).hall;
            && Shaped(after) && i < |after.clients| && after.clients[i].connected && after.clients[i].username != ""
            && Heard(after, i, later) == Brew(Heard(h, i, later), i, words).hall
            && Brew(Heard(h, i, later), i, words).reply.Brewed?
  {
    assert Process(h, i, line, now) == Brew(Heard(h, i, now), i, words);
  }

  lemma ConsumeLine(h: Hall, heard: Hall, i: nat, line: string, name: string, text: string, now: int)
    requires Shaped(h) && i < |h.clients| && h.clients[i].connected && h.clients[i].username != ""
    requires heard == Heard(h, i, now) && Tokens(line, MAX_TOKENS) == ["CONSUME", name, text]
    requires Consume(heard, i, ["BREW", name, text]).reply.Consumed?
    ensures Process(h, i, line, now) == Consume(heard, i, ["BREW", name, text])
  {
  }

  // ----- connections

  /** The lowest free slot is taken, with an empty spellbook; without one nothing happens. */
  ghost predicate Admits(h: Hall, now: int, h': Hall, accepted: bool) {
    && h'.names == h.names && h'.stock == h.stock && h'.lost == h.lost && |h'.clients| == |h.clients|
    && if accepted then
         exists k: nat :: Takes(h.clients, k, now, |h.names|, h'.clients)
       else
         h'.clients == h.clients && forall j :: 0 <= j < |h.clients| ==> h.clients[j].connected
  }

  ghost predicate Takes(before: seq<Client>, k: nat, now: int, ingredients: nat, after: seq<Client>) {
    && k < |before| == |after| && !before[k].connected && (forall j :: 0 <= j < k ==> before[j].connected)
    && (forall j :: 0 <= j < |before| && j != k ==> after[j] == before[j])
    && after[k].connected && after[k].username == before[k].username && after[k].role == before[k].role
    && after[k].lastActive == now
    && |after[k].book| == ingredients && forall m :: 0 <= m < ingredients ==> after[k].book[m] == 0
  }

  lemma AcceptAdmits(h: Hall, now: int)
    requires Shaped(h)
    ensures Admits(h, now, Accepted(h, now), FreeSlot(h.clients) < |h.clients|)
  {
    var k := FreeSlot(h.clients);
    if k < |h.clients| {
      assert Takes(h.clients, k, now, |h.names|, Accepted(h, now).clients);
    }
  }

  /** Exactly the connected clients that have been silent for the timeout are gone. */
  ghost predicate Expires(before: seq<Client>, n: nat, now: int, timeout: int, after: seq<Client>) {
    |after| == |before| && forall j :: 0 <= j < |before| ==>
      after[j] == if j < n && before[j].connected && now - before[j].lastActive >= timeout then Client(false, "", "", [], 0)
                  else before[j]
  }

  lemma {:induction false} TimeoutsExpire(h: Hall, n: nat, now: int, timeout: int)
    requires Shaped(h) && n <= |h.clients|
    ensures Expires(h.clients, n, now, timeout, Expired(h, n, now, timeout).clients)
  {
    if n > 0 {
      TimeoutsExpire(h, n - 1, now, timeout);
    }
  }

  // ----- numbers

  /** A number as the server prints it. */
  function Decimal(n: nat): string {
    var digit := ['0' + (n % 10) as char];
    if n < 10 then digit else Decimal(n / 10) + digit
  }

  lemma {:induction false} DecimalDigits(n: nat)
    ensures Value(Decimal(n)) == n && Decimal(n) != [] && forall i :: 0 <= i < |Decimal(n)| ==> IsDigit(Decimal(n)[i])
  {
    if n >= 10 {
      DecimalDigits(n / 10);
      var d := Decimal(n);
      assert d[..|d| - 1] == Decimal(n / 10);
    } else {
      assert Decimal(n)[..0] == [];
    }
  }

  /** The server reads back the numbers that it prints. */
  lemma PrintedIsRead(n: nat)
    requires 1 <= n <= 2147483647
    ensures ParsePositive(Decimal(n)) == Some(n)
  {
    var text := Decimal(n);
    DecimalDigits(n);
    assert text[0..] == text;
    assert Numeral(text, 0, 0);
    ParsePositiveExact(text, n);
  }
}
