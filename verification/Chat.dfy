/**
 * One chat conversation: sends numbered without gaps and at most once per client message,
 * monotone read markers, and history pages that fit together while others keep sending.
 */
module Chat {
  import opened Common

  const MAX_SEQUENCE: int64 := 0x7FFF_FFFF_FFFF_FFFF

  datatype Message = Message(sequence: int64, sender: nat, client: nat, body: string)
  datatype Room = Room(last: int64, messages: seq<Message>, marks: map<nat, int64>)

  const OPENED := Room(0, [], map[])

  // ---- Sending ------------------------------------------------------------------------------

  predicate Sendable(conversation: nat, client: nat, body: string)
  {
    conversation != 0 && client != 0 && !Blank(body) && |body| <= 5000 && Bytes(body) <= 20_000
  }

  // The limit in bytes never refuses what the limit in characters accepts.
  lemma {:induction false} CharactersBoundBytes(s: string)
    ensures Bytes(s) <= 4 * |s|
    ensures |s| <= 5000 ==> Bytes(s) <= 20_000
  {
    if s != "" {
      CharactersBoundBytes(s[..|s| - 1]);
    }
  }

  predicate By(m: Message, sender: nat, client: nat)
  {
    m.sender == sender && m.client == client
  }

  function Existing(ms: seq<Message>, sender: nat, client: nat): (m: Option<Message>)
    ensures m.Some? ==> m.value in ms && By(m.value, sender, client)
    ensures m.None? ==> forall i :: 0 <= i < |ms| ==> !By(ms[i], sender, client)
  {
    if ms == [] then None
    else if By(ms[|ms| - 1], sender, client) then Some(ms[|ms| - 1])
    else Existing(ms[..|ms| - 1], sender, client)
  }

  datatype Sent = Sent(room: Room, answer: Result<Message>)

  // gate is the outcome of the checks on the user: activity, rate, access to the conversation.
  function Send(c: Room, conversation: nat, user: nat, client: nat, body: string, gate: Option<Error>): Sent
  {
    if !Sendable(conversation, client, body) then Sent(c, Err(Invalid))
    else if gate.Some? then Sent(c, Err(gate.value))
    else
      var earlier := Existing(c.messages, user, client);
      if earlier.Some? then Sent(c, if earlier.value.body == body then Ok(earlier.value) else Err(Conflict))
      else if c.last == MAX_SEQUENCE then Sent(c, Err(Conflict))
      else
        var m := Message(c.last + 1, user, client, body);
        Sent(c.(messages := c.messages + [m], last := m.sequence), Ok(m))
  }

  datatype Marked = Marked(room: Room, answer: Result<int64>)

  function Mark(c: Room, conversation: nat, user: nat, sequence: int64, gate: Option<Error>): Marked
  {
    if conversation == 0 || sequence < 0 then Marked(c, Err(Invalid))
    else if gate.Some? then Marked(c, Err(gate.value))
    else if sequence > c.last then Marked(c, Err(Invalid))
    else
      var seen := if user in c.marks && c.marks[user] > sequence then c.marks[user] else sequence;
      Marked(c.(marks := c.marks[user := seen]), Ok(seen))
  }

  // ---- History ------------------------------------------------------------------------------

  function Above(ms: seq<Message>, s: int64): seq<Message>
  {
    if ms == [] then []
    else if ms[0].sequence > s then [ms[0]] + Above(ms[1..], s)
    else Above(ms[1..], s)
  }

  function Below(ms: seq<Message>, s: int64): seq<Message>
  {
    if ms == [] then []
    else if ms[0].sequence < s then [ms[0]] + Below(ms[1..], s)
    else Below(ms[1..], s)
  }

  function FirstOf(ms: seq<Message>, limit: nat): seq<Message>
  {
    if |ms| <= limit then ms else ms[..limit]
  }

  function LastOf(ms: seq<Message>, limit: nat): seq<Message>
  {
    if |ms| <= limit then ms else ms[|ms| - limit..]
  }

  predicate RequestValid(after: Option<int64>, before: Option<int64>, limit: int)
  {
    && 1 <= limit <= 100
    && !(after.Some? && before.Some?)
    && (after.Some? ==> after.value >= 0)
    && (before.Some? ==> before.value > 0)
  }

  // A page in the order it is answered: oldest first.
  function Page(ms: seq<Message>, after: Option<int64>, before: Option<int64>, limit: nat): seq<Message>
  {
    match after
    case Some(s) => FirstOf(Above(ms, s), limit)
    case None => LastOf(if before.Some? then Below(ms, before.value) else ms, limit)
  }

  // ---- The invariant ------------------------------------------------------------------------

  predicate Numbered(ms: seq<Message>)
  {
    forall i :: 0 <= i < |ms| ==> ms[i].sequence as int == i + 1
  }

  predicate OncePerClient(ms: seq<Message>)
  {
    forall i, j :: 0 <= i < j < |ms| ==> !(ms[i].sender == ms[j].sender && ms[i].client == ms[j].client)
  }

  predicate Inv(c: Room)
  {
    && c.last as int == |c.messages|
    && Numbered(c.messages)
    && OncePerClient(c.messages)
    && (forall u :: u in c.marks ==> 0 <= c.marks[u] <= c.last)
  }

  datatype Op =
    | Sends(conversation: nat, user: nat, client: nat, body: string, gate: Option<Error>)
    | Reads(conversation: nat, user: nat, sequence: int64, gate: Option<Error>)

  function Step(c: Room, op: Op): Room
  {
    match op
    case Sends(conversation, user, client, body, gate) => Send(c, conversation, user, client, body, gate).room
    case Reads(conversation, user, sequence, gate) => Mark(c, conversation, user, sequence, gate).room
  }

  // A later state of the same conversation: nothing is lost, renumbered or moved back.
  predicate Grows(c: Room, c': Room)
  {
    && c.messages <= c'.messages && c.last <= c'.last
    && forall u :: u in c.marks ==> u in c'.marks && c.marks[u] <= c'.marks[u]
  }

  lemma StepKeeps(c: Room, op: Op)
    requires Inv(c)
    ensures Inv(Step(c, op)) && Grows(c, Step(c, op))
  {
    if op.Sends? && Step(c, op) != c {
      var none := Existing(c.messages, op.user, op.client);
      assert forall i :: 0 <= i < |c.messages| ==> !By(c.messages[i], op.user, op.client);
    }
  }

  predicate Run(states: seq<Room>, ops: seq<Op>)
  {
    && |states| == |ops| + 1
    && states[0] == OPENED
    && forall i :: 0 <= i < |ops| ==> states[i + 1] == Step(states[i], ops[i])
  }

  // Main theorem: in every state of every run the sequences are exactly 1..last, each client
  // message is there once, and no read marker has passed the end or moved back.
  lemma {:induction false} RunKeeps(states: seq<Room>, ops: seq<Op>, m: nat, n: nat)
    requires Run(states, ops) && m <= n < |states|
    ensures Inv(states[n]) && Grows(states[m], states[n])
    decreases n
  {
    hide Step;
    if n > 0 {
      RunKeeps(states, ops, if m < n then m else n - 1, n - 1);
      StepKeeps(states[n - 1], ops[n - 1]);
      if m < n {
        GrowsOn(states[m], states[n - 1], states[n]);
      }
    }
  }

  lemma GrowsOn(a: Room, b: Room, c: Room)
    requires Grows(a, b) && Grows(b, c)
    ensures Grows(a, c)
  {
  }

  // A send repeated at any later time answers the stored message, or a conflict if the text
  // differs, and changes nothing.
  lemma SendIsIdempotent(states: seq<Room>, ops: seq<Op>, m: nat, n: nat, body: string, gate: Option<Error>)
    requires Run(states, ops) && m < n < |states| && ops[m].Sends?
    requires Send(states[m], ops[m].conversation, ops[m].user, ops[m].client, ops[m].body, ops[m].gate).answer.Ok?
    requires Sendable(ops[m].conversation, ops[m].client, body) && gate == None
    ensures var first := Send(states[m], ops[m].conversation, ops[m].user, ops[m].client, ops[m].body, ops[m].gate);
      var again := Send(states[n], ops[m].conversation, ops[m].user, ops[m].client, body, gate);
      again.room == states[n] && again.answer == if body == ops[m].body then first.answer else Err(Conflict)
  {
    var op := ops[m];
    var first := Send(states[m], op.conversation, op.user, op.client, op.body, op.gate);
    RunKeeps(states, ops, m, m);
    RunKeeps(states, ops, m + 1, n);
    StepKeeps(states[m], op);
    var i := Where(states[m + 1].messages, first.answer.value, states[m], op);
    assert states[n].messages[i] == first.answer.value;
    OnlyOne(states[n].messages, op.user, op.client, i);
  }

  lemma Where(ms: seq<Message>, m: Message, c: Room, op: Op) returns (i: nat)
    requires op.Sends? && Send(c, op.conversation, op.user, op.client, op.body, op.gate).answer == Ok(m)
    requires ms == Step(c, op).messages
    ensures i < |ms| && ms[i] == m && By(m, op.user, op.client) && m.body == op.body
  {
    if Existing(c.messages, op.user, op.client).Some? {
      i :| 0 <= i < |ms| && ms[i] == m;
    } else {
      i := |ms| - 1;
    }
  }

  lemma OnlyOne(ms: seq<Message>, sender: nat, client: nat, i: nat)
    requires OncePerClient(ms) && i < |ms| && By(ms[i], sender, client)
    ensures Existing(ms, sender, client) == Some(ms[i])
  {
    var e := Existing(ms, sender, client);
    assert !e.None?;
    var j :| 0 <= j < |ms| && ms[j] == e.value;
  }

  // ---- Paging -------------------------------------------------------------------------------

  lemma {:induction false} AboveIsTail(ms: seq<Message>, first: int, s: int64)
    requires forall i :: 0 <= i < |ms| ==> ms[i].sequence as int == first + i
    ensures Above(ms, s) == if s as int < first then ms else if s as int - first + 1 <= |ms| then ms[s as int - first + 1..] else []
  {
    if ms != [] {
      AboveIsTail(ms[1..], first + 1, s);
    }
  }

  lemma {:induction false} BelowIsHead(ms: seq<Message>, first: int, s: int64)
    requires forall i :: 0 <= i < |ms| ==> ms[i].sequence as int == first + i
    ensures Below(ms, s) == if s as int <= first then [] else if s as int - first <= |ms| then ms[..s as int - first] else ms
  {
    if ms != [] {
      BelowIsHead(ms[1..], first + 1, s);
    }
  }

  // A client catching up keeps what it got and asks for what comes after; one walking back asks
  // for what comes before. Any number of sends may happen between its requests.
  datatype Client = Client(got: seq<Message>, from: nat, to: nat)

  // The client holds exactly the messages from+1..to, in order.
  predicate Holds(c: Room, client: Client)
  {
    client.from <= client.to <= |c.messages| && client.got == c.messages[client.from..client.to]
  }

  function Forward(c: Room, client: Client, limit: nat): Client
    requires client.to < 0x8000_0000_0000_0000
  {
    var page := Page(c.messages, Some(client.to as int64), None, limit);
    Client(client.got + page, client.from, client.to + |page|)
  }

  function Back(c: Room, client: Client, limit: nat): Client
    requires client.from + 1 < 0x8000_0000_0000_0000
  {
    var page := Page(c.messages, None, Some((client.from + 1) as int64), limit);
    Client(page + client.got, if |page| <= client.from then client.from - |page| else 0, client.to)
  }

  function Latest(c: Room, limit: nat): Client
  {
    var page := Page(c.messages, None, None, limit);
    Client(page, |c.messages| - if |page| <= |c.messages| then |page| else 0, |c.messages|)
  }

  lemma GrowthKeepsHold(c: Room, c': Room, client: Client)
    requires Grows(c, c') && Holds(c, client)
    ensures Holds(c', client)
  {
  }

  // Paging forward: the next page continues where the client stands, without gap or repeat; a
  // page that is not full means there was nothing more.
  lemma ForwardContinues(c: Room, client: Client, limit: nat)
    requires Inv(c) && Holds(c, client) && 1 <= limit <= 100
    ensures Holds(c, Forward(c, client, limit))
    ensures Forward(c, client, limit).from == client.from
    ensures |Forward(c, client, limit).got| - |client.got| < limit ==> Forward(c, client, limit).to == |c.messages|
    ensures client.to < |c.messages| ==> client.to < Forward(c, client, limit).to
  {
    AboveIsTail(c.messages, 1, client.to as int64);
  }

  lemma BackContinues(c: Room, client: Client, limit: nat)
    requires Inv(c) && Holds(c, client) && |c.messages| < 0x7FFF_FFFF_FFFF_FFFF && 1 <= limit <= 100
    ensures Holds(c, Back(c, client, limit))
    ensures Back(c, client, limit).to == client.to
    ensures |Back(c, client, limit).got| - |client.got| < limit ==> Back(c, client, limit).from == 0
    ensures 0 < client.from ==> Back(c, client, limit).from < client.from
  {
    BelowIsHead(c.messages, 1, (client.from + 1) as int64);
  }

  lemma LatestHolds(c: Room, limit: nat)
    requires Inv(c) && 1 <= limit <= 100
    ensures Holds(c, Latest(c, limit)) && Latest(c, limit).to == |c.messages|
  {
  }

  datatype Move = Ahead(limit: nat) | Backward(limit: nat) | Other(op: Op)

  datatype Session = Session(room: Room, client: Client)

  predicate Moves(s: Session, m: Move, s': Session)
  {
    match m
    case Ahead(limit) => 1 <= limit <= 100 && |s.room.messages| < 0x7FFF_FFFF_FFFF_FFFF && s.client.to <= |s.room.messages|
                         && s'.room == s.room && s'.client == Forward(s.room, s.client, limit)
    case Backward(limit) => 1 <= limit <= 100 && s.client.from <= |s.room.messages| < 0x7FFF_FFFF_FFFF_FFFF
                            && s'.room == s.room && s'.client == Back(s.room, s.client, limit)
    case Other(op) => s'.room == Step(s.room, op) && s'.client == s.client
  }

  // A client starts with nothing, to read from the first message on, or with the latest page.
  predicate Opening(s: Session)
  {
    s.client == Client([], 0, 0) || exists limit :: 1 <= limit <= 100 && s.client == Latest(s.room, limit)
  }

  predicate Visit(states: seq<Session>, moves: seq<Move>)
  {
    && |states| == |moves| + 1
    && Inv(states[0].room) && Opening(states[0])
    && forall i :: 0 <= i < |moves| ==> Moves(states[i], moves[i], states[i + 1])
  }

  lemma OpeningHolds(s: Session)
    requires Inv(s.room) && Opening(s)
    ensures Holds(s.room, s.client)
  {
    hide Inv, Latest;
    if limit :| 1 <= limit <= 100 && s.client == Latest(s.room, limit) {
      LatestHolds(s.room, limit);
    }
  }

  // Main theorem: whatever mix of pages forward and back, with sends and reads in between, the
  // client holds each message of one unbroken stretch exactly once and in order.
  lemma {:induction false} PagesFitTogether(states: seq<Session>, moves: seq<Move>, m: nat, n: nat)
    requires Visit(states, moves) && m <= n < |states|
    ensures Inv(states[n].room) && Holds(states[n].room, states[n].client)
    ensures states[n].client.from <= states[m].client.from && states[m].client.to <= states[n].client.to
    ensures states[m].room.last <= states[n].room.last
    ensures forall i :: 0 <= i < |states[n].client.got| ==> states[n].client.got[i].sequence as int == states[n].client.from + i + 1
    decreases n
  {
    hide Step, Forward, Back, Holds, Inv, Opening;
    if n == 0 {
      OpeningHolds(states[0]);
    } else {
      PagesFitTogether(states, moves, if m < n then m else n - 1, n - 1);
      MoveKeeps(states[n - 1], moves[n - 1], states[n]);
    }
    HeldNumbers(states[n].room, states[n].client);
  }

  // The page of move i came back with fewer messages than were asked for.
  predicate Short(states: seq<Session>, moves: seq<Move>, i: nat)
    requires i < |moves| && i + 1 < |states|
  {
    match moves[i]
    case Ahead(limit) => |states[i + 1].client.got| - |states[i].client.got| < limit
    case Backward(limit) => |states[i + 1].client.got| - |states[i].client.got| < limit
    case Other(_) => false
  }

  // Main theorem: a client that began at the first message or has had a short page back, and has
  // had a short page forward (or the latest page) with nothing stored since, holds the whole
  // conversation.
  lemma ShortPagesMeanAll(states: seq<Session>, moves: seq<Move>, f: nat, b: nat, n: nat)
    requires Visit(states, moves) && f < n < |states|
    requires states[0].client.from == 0 || (b < n && moves[b].Backward? && Short(states, moves, b))
    requires (f == 0 && states[0].client.to == |states[0].room.messages|) || (moves[f].Ahead? && Short(states, moves, f))
    requires states[n].room.last == states[f].room.last
    ensures states[n].client.got == states[n].room.messages
  {
    hide Step, Forward, Back;
    PagesFitTogether(states, moves, 0, n);
    PagesFitTogether(states, moves, f, f);
    PagesFitTogether(states, moves, f + 1, n);
    if moves[f].Ahead? {
      assert Moves(states[f], moves[f], states[f + 1]);
      ForwardContinues(states[f].room, states[f].client, moves[f].limit);
    }
    if b < n && moves[b].Backward? {
      assert Moves(states[b], moves[b], states[b + 1]);
      PagesFitTogether(states, moves, b, b);
      PagesFitTogether(states, moves, b + 1, n);
      BackContinues(states[b].room, states[b].client, moves[b].limit);
    }
  }

  lemma MoveKeeps(s: Session, m: Move, s': Session)
    requires Inv(s.room) && Holds(s.room, s.client) && Moves(s, m, s')
    ensures Inv(s'.room) && Holds(s'.room, s'.client)
    ensures s'.client.from <= s.client.from && s.client.to <= s'.client.to && s.room.last <= s'.room.last
  {
    hide Step, Forward, Back;
    match m
    case Ahead(limit) =>
      ForwardContinues(s.room, s.client, limit);
      AheadOnly(s.room, s.client, limit);
    case Backward(limit) =>
      BackContinues(s.room, s.client, limit);
      BackOnly(s.room, s.client, limit);
    case Other(op) =>
      StepKeeps(s.room, op);
      GrowthKeepsHold(s.room, s'.room, s.client);
  }

  lemma AheadOnly(c: Room, client: Client, limit: nat)
    requires client.to < 0x8000_0000_0000_0000
    ensures client.to <= Forward(c, client, limit).to
  {
  }

  lemma BackOnly(c: Room, client: Client, limit: nat)
    requires client.from + 1 < 0x8000_0000_0000_0000
    ensures Back(c, client, limit).from <= client.from
  {
  }

  lemma HeldNumbers(c: Room, client: Client)
    requires Inv(c) && Holds(c, client)
    ensures forall i :: 0 <= i < |client.got| ==> client.got[i].sequence as int == client.from + i + 1
  {
  }

  // ---- The service over its rows ------------------------------------------------------------

  function Reversed(ms: seq<Message>): (r: seq<Message>)
    ensures |r| == |ms|
  {
    if ms == [] then [] else Reversed(ms[1..]) + [ms[0]]
  }

  lemma {:induction false} ReversedAt(ms: seq<Message>, k: nat)
    requires k < |ms|
    ensures Reversed(ms)[k] == ms[|ms| - 1 - k]
  {
    if |ms| > 1 {
      ReversedAt(ms[1..], if k < |ms| - 1 then k else 0);
    }
  }

  // Swaps a page read newest first into the order it is shown in.
  method ReverseInPlace(v: array<Message>)
    modifies v
    ensures v[..] == Reversed(old(v[..]))
  {
    var i, j := 0, v.Length - 1;
    while i < j
      invariant 0 <= i <= j + 1 <= v.Length && i + j == v.Length - 1
      invariant forall k :: 0 <= k < i ==> v[k] == old(v[v.Length - 1 - k]) && v[v.Length - 1 - k] == old(v[k])
      invariant forall k :: i <= k <= j ==> v[k] == old(v[k])
    {
      v[i], v[j] := v[j], v[i];
      i, j := i + 1, j - 1;
    }
    ghost var was := old(v[..]);
    forall k | 0 <= k < v.Length
      ensures v[..][k] == Reversed(was)[k]
    {
      ReversedAt(was, k);
    }
    assert v[..] == Reversed(was);
  }

  lemma ReversedTwice(ms: seq<Message>)
    ensures Reversed(Reversed(ms)) == ms
  {
    forall k | 0 <= k < |ms|
      ensures Reversed(Reversed(ms))[k] == ms[k]
    {
      ReversedAt(ms, |ms| - 1 - k);
      ReversedAt(Reversed(ms), k);
    }
  }

  class Conversation {
    var last: int64
    var messages: seq<Message>
    var marks: map<nat, int64>

    function View(): Room
      reads this
    {
      Room(last, messages, marks)
    }

    constructor ()
      ensures View() == OPENED
    {
      last, messages, marks := 0, [], map[];
    }

    method SendMessage(conversation: nat, user: nat, client: nat, body: string, gate: Option<Error>) returns (r: Result<Message>)
      modifies this
      ensures Sent(View(), r) == old(Send(View(), conversation, user, client, body, gate))
    {
      if !Sendable(conversation, client, body) {
        return Err(Invalid);
      }
      if gate.Some? {
        return Err(gate.value);
      }
      var found := Existing(messages, user, client);
      if found.Some? {
        if found.value.body != body {
          return Err(Conflict);
        }
        return Ok(found.value);
      }
      if last == 0x7FFF_FFFF_FFFF_FFFF {
        return Err(Conflict);
      }
      var m := Message(last + 1, user, client, body);
      messages := messages + [m];
      last := m.sequence;
      return Ok(m);
    }

    method ReadTo(conversation: nat, user: nat, sequence: int64, gate: Option<Error>) returns (r: Result<int64>)
      modifies this
      ensures Marked(View(), r) == old(Mark(View(), conversation, user, sequence, gate))
    {
      if conversation == 0 || sequence < 0 {
        return Err(Invalid);
      }
      if gate.Some? {
        return Err(gate.value);
      }
      if sequence > last {
        return Err(Invalid);
      }
      var seen := sequence;
      if user in marks && marks[user] > seen {
        seen := marks[user];
      }
      marks := marks[user := seen];
      return Ok(seen);
    }

    // The rows of one query, in its order: ascending after a sequence, descending otherwise.
    method Query(after: Option<int64>, before: Option<int64>, limit: nat) returns (v: array<Message>)
      ensures fresh(v)
      ensures v[..] == if after.Some? then Page(messages, after, before, limit) else Reversed(Page(messages, after, before, limit))
    {
      var rows := Page(messages, after, before, limit);
      if after.None? {
        rows := Reversed(rows);
      }
      v := new Message[|rows|](i requires 0 <= i < |rows| => rows[i]);
      assert v[..] == rows;
    }

    method History(after: Option<int64>, before: Option<int64>, limit: int, gate: Option<Error>) returns (r: Result<array<Message>>)
      ensures !RequestValid(after, before, limit) ==> r == Err(Invalid)
      ensures RequestValid(after, before, limit) && gate.Some? ==> r == Err(gate.value)
      ensures RequestValid(after, before, limit) && gate.None? ==> r.Ok? && r.value[..] == Page(messages, after, before, limit)
    {
      if limit < 1 || limit > 100 || (after.Some? && before.Some?) || (after.Some? && after.value < 0) || (before.Some? && before.value <= 0) {
        return Err(Invalid);
      }
      if gate.Some? {
        return Err(gate.value);
      }
      var v := Query(after, before, limit);
      if after.None? {
        ReverseInPlace(v);
        ReversedTwice(Page(messages, after, before, limit));
      }
      return Ok(v);
    }
  }
}
