/** The event-stream emitter: paced sending to clients that come and go. */
module Broadcast {
  import opened MatchStream

  const BACKLOG := 40

  /** The last `BACKLOG` messages of those sent so far. */
  function Recent(sent: seq<Message>): (r: seq<Message>)
    ensures |r| <= BACKLOG
  {
    if |sent| <= BACKLOG then sent else sent[|sent| - BACKLOG..]
  }

  /** When a client joined and left, counted in messages sent. */
  datatype Visit = Visit(joinedAt: nat, leftAt: nat)

  /** What a client is owed: the init message, then a contiguous piece of the
      stream that starts at most `BACKLOG` messages before he joined. */
  function Owed(init: Message, sent: seq<Message>, v: Visit): seq<Message>
    requires v.joinedAt <= v.leftAt <= |sent|
  {
    [init] + sent[if v.joinedAt <= BACKLOG then 0 else v.joinedAt - BACKLOG..v.leftAt]
  }

  type ClientId = nat

  /** Every client has received exactly what he is owed, those connected up to now. */
  ghost predicate Delivered(init: Message, sent: seq<Message>, clients: set<ClientId>,
                            received: map<ClientId, seq<Message>>, visits: map<ClientId, Visit>)
  {
    && clients <= visits.Keys && received.Keys == visits.Keys
    && (forall c :: c in visits ==> visits[c].joinedAt <= visits[c].leftAt <= |sent|)
    && (forall c :: c in clients ==> visits[c].leftAt == |sent|)
    && (forall c :: c in visits ==> received[c] == Owed(init, sent, visits[c]))
  }

  function Written(received: map<ClientId, seq<Message>>, clients: set<ClientId>, m: Message)
    : map<ClientId, seq<Message>>
  {
    map c | c in received :: if c in clients then received[c] + [m] else received[c]
  }

  ghost function Prolonged(visits: map<ClientId, Visit>, clients: set<ClientId>, now: nat): map<ClientId, Visit> {
    map c | c in visits :: if c in clients then Visit(visits[c].joinedAt, now) else visits[c]
  }

  lemma SendDelivers(init: Message, sent: seq<Message>, m: Message, clients: set<ClientId>,
                     received: map<ClientId, seq<Message>>, visits: map<ClientId, Visit>)
    requires Delivered(init, sent, clients, received, visits)
    ensures Delivered(init, sent + [m], clients, Written(received, clients, m), Prolonged(visits, clients, |sent| + 1))
  {
    hide Owed;
    forall c | c in visits
      ensures Written(received, clients, m)[c] == Owed(init, sent + [m], Prolonged(visits, clients, |sent| + 1)[c])
    {
      OneMoreOwed(init, sent, m, visits[c], c in clients);
    }
  }

  lemma JoinDelivers(init: Message, sent: seq<Message>, clients: set<ClientId>,
                     received: map<ClientId, seq<Message>>, visits: map<ClientId, Visit>, c: ClientId)
    requires Delivered(init, sent, clients, received, visits) && c !in visits
    ensures Delivered(init, sent, clients + {c},
                      received[c := [init] + Recent(sent)], visits[c := Visit(|sent|, |sent|)])
  {
    hide Owed, Recent;
    RecentIsOwed(init, sent);
  }

  class SseEmitter {
    const messages: seq<Message>
    const path: string
    var clients: set<ClientId>
    var received: map<ClientId, seq<Message>> // per response, also after it closed
    var recentBacklog: seq<Message>
    var next: nat                             // the message the paced loop sends next
    ghost var visits: map<ClientId, Visit>

    /** Messages of the stream sent so far; init is not among them. */
    ghost function Sent(): seq<Message>
      reads this
      requires 1 <= next <= |messages|
    {
      messages[1..next]
    }

    ghost predicate Valid()
      reads this
    {
      && 1 <= next <= |messages| && messages[0].Init? && InitFirst(messages)
      && recentBacklog == Recent(Sent())
      && Delivered(messages[0], Sent(), clients, received, visits)
    }

    constructor (messages: seq<Message>, path: string)
      requires messages != [] && messages[0].Init? && InitFirst(messages)
      ensures Valid() && clients == {} && visits == map[] && next == 1
      ensures this.messages == messages && this.path == path
    {
      this.messages, this.path := messages, path;
      clients, received, recentBacklog, next, visits := {}, map[], [], 1, map[];
    }

    /** A request: the wrong path is answered with 404 and joins nobody. */
    method Connect(c: ClientId, url: string) returns (ok: bool)
      requires Valid() && c !in visits
      modifies this
      ensures Valid() && next == old(next) && ok == (url == path)
      ensures !ok ==> clients == old(clients) && received == old(received) && visits == old(visits)
      ensures ok ==> clients == old(clients) + {c}
      ensures ok ==> visits == old(visits)[c := Visit(next - 1, next - 1)]
      ensures ok ==> received == old(received)[c := [messages[0]] + Recent(Sent())]
    {
      hide Delivered, Owed, Recent;
      if url != path {
        return false;
      }
      var lines := [messages[0]];
      var i := 0;
      while i < |recentBacklog|
        invariant 0 <= i <= |recentBacklog|
        invariant lines == [messages[0]] + recentBacklog[..i]
      {
        lines := lines + [recentBacklog[i]];
        i := i + 1;
      }
      assert recentBacklog[..i] == recentBacklog;
      JoinDelivers(messages[0], Sent(), clients, received, visits, c);
      received := received[c := lines];
      clients := clients + {c};
      visits := visits[c := Visit(next - 1, next - 1)];
      ok := true;
    }

    method Disconnect(c: ClientId)
      requires Valid()
      modifies this`clients
      ensures Valid() && clients == old(clients) - {c}
    {
      clients := clients - {c};
    }

    /** One turn of the paced loop: the next message goes to the backlog and to
        every client. */
    method Send()
      requires Valid() && next < |messages|
      modifies this
      ensures Valid() && next == old(next) + 1 && clients == old(clients)
      ensures received == Written(old(received), clients, messages[old(next)])
      ensures visits == Prolonged(old(visits), clients, next - 1)
    {
      hide Delivered, Written, Prolonged, Recent;
      var m := messages[next];
      ghost var sent := Sent();
      RecentOneMore(sent, m);
      if !m.Init? {
        recentBacklog := recentBacklog + [m];
        if |recentBacklog| > BACKLOG {
          recentBacklog := recentBacklog[1..];
        }
      }
      SendDelivers(messages[0], sent, m, clients, received, visits);
      received := Written(received, clients, m);
      visits := Prolonged(visits, clients, next);
      next := next + 1;
      assert Sent() == sent + [m];
    }

    /** Who was there when, in numbers of messages sent. */
    ghost function Attendance(): Room
      reads this
      requires 1 <= next
    {
      Room(clients, visits, next - 1)
    }

    /** Any interleaving of connects, disconnects and sends: the room fills and
        empties as scheduled, and every client has what he is owed for his visit. */
    method Run(schedule: seq<Action>)
      requires Valid()
      modifies this
      ensures Valid()
      ensures Attendance() == After(old(Attendance()), schedule, path, |messages| - 1)
    {
      hide Delivered, Recent, Owed;
      ghost var start := Attendance();
      var i := 0;
      while i < |schedule|
        invariant 0 <= i <= |schedule| && Valid()
        invariant Attendance() == After(start, schedule[..i], path, |messages| - 1)
        decreases |schedule| - i
      {
        KnownClients(messages[0], Sent(), clients, received, visits);
        assert schedule[..i + 1][..i] == schedule[..i];
        match schedule[i] {
          case Join(c, url) =>
            if c !in received {
              var _ := Connect(c, url);
            }
          case Leave(c) => Disconnect(c);
          case SendNext =>
            if next < |messages| {
              Send();
            }
        }
        i := i + 1;
      }
      assert schedule[..|schedule|] == schedule;
    }
  }

  datatype Room = Room(clients: set<ClientId>, visits: map<ClientId, Visit>, sent: nat)

  /** One action; a client connects at most once, and only under the path. */
  ghost function Attend(r: Room, a: Action, path: string, total: int): Room {
    match a
    case Join(c, url) =>
      if c in r.visits || url != path then r
      else Room(r.clients + {c}, r.visits[c := Visit(r.sent, r.sent)], r.sent)
    case Leave(c) => r.(clients := r.clients - {c})
    case SendNext =>
      if total <= r.sent then r else Room(r.clients, Prolonged(r.visits, r.clients, r.sent + 1), r.sent + 1)
  }

  ghost function After(r: Room, schedule: seq<Action>, path: string, total: int): Room {
    if schedule == [] then r
    else Attend(After(r, schedule[..|schedule| - 1], path, total), schedule[|schedule| - 1], path, total)
  }

  lemma KnownClients(init: Message, sent: seq<Message>, clients: set<ClientId>,
                     received: map<ClientId, seq<Message>>, visits: map<ClientId, Visit>)
    requires Delivered(init, sent, clients, received, visits)
    ensures forall c :: c in received <==> c in visits
  {
    assert received.Keys == visits.Keys;
  }

  datatype Action = Join(client: ClientId, url: string) | Leave(client: ClientId) | SendNext

  lemma RecentOneMore(sent: seq<Message>, m: Message)
    ensures var pushed := Recent(sent) + [m];
      Recent(sent + [m]) == if |pushed| > BACKLOG then pushed[1..] else pushed
  {
  }

  lemma RecentIsOwed(init: Message, sent: seq<Message>)
    ensures [init] + Recent(sent) == Owed(init, sent, Visit(|sent|, |sent|))
  {
  }

  lemma OneMoreOwed(init: Message, sent: seq<Message>, m: Message, v: Visit, present: bool)
    requires v.joinedAt <= v.leftAt <= |sent| && (present ==> v.leftAt == |sent|)
    ensures Owed(init, sent + [m], if present then Visit(v.joinedAt, |sent| + 1) else v)
         == if present then Owed(init, sent, v) + [m] else Owed(init, sent, v)
  {
    var from := if v.joinedAt <= BACKLOG then 0 else v.joinedAt - BACKLOG;
    if present {
      assert (sent + [m])[from..|sent| + 1] == sent[from..] + [m] == sent[from..v.leftAt] + [m];
    } else {
      assert (sent + [m])[from..v.leftAt] == sent[from..v.leftAt];
    }
  }

  /** What a client has received has no gap and no repetition: after init come
      the last forty messages of those sent before he joined, or all when they
      were fewer, and then every message sent until he left. */
  lemma NoGapNoRepeat(init: Message, sent: seq<Message>, v: Visit)
    requires v.joinedAt <= v.leftAt <= |sent|
    ensures
      var past := if v.joinedAt < 40 then v.joinedAt else 40;
      var owed := Owed(init, sent, v);
      && |owed| == 1 + past + (v.leftAt - v.joinedAt) && owed[0] == init
      && forall k :: 0 < k < |owed| ==> owed[k] == sent[v.joinedAt - past + k - 1]
  {
  }

  // ---------- who was there when ----------

  /** How many messages have been sent by the end of a schedule that has `total` to send. */
  function SentBy(schedule: seq<Action>, total: nat): nat {
    if schedule == [] then 0
    else
      var n := SentBy(schedule[..|schedule| - 1], total);
      if schedule[|schedule| - 1].SendNext? && n < total then n + 1 else n
  }

  /** The client asks for the stream under its path. */
  predicate Joins(a: Action, c: ClientId, path: string) {
    a == Join(c, path)
  }

  predicate Asks(schedule: seq<Action>, c: ClientId, path: string) {
    exists i :: 0 <= i < |schedule| && Joins(schedule[i], c, path)
  }

  lemma AfterOneMore(r: Room, schedule: seq<Action>, a: Action, path: string, total: nat)
    ensures After(r, schedule + [a], path, total) == Attend(After(r, schedule, path, total), a, path, total)
    ensures SentBy(schedule + [a], total) == SentBy(schedule, total) + if a.SendNext? &&
      SentBy(schedule, total) < total then 1 else 0
  {
    assert (schedule + [a])[..|schedule|] == schedule;
  }

  /** From an empty room, counted from the first message: what is sent, and who
      has a visit. */
  lemma {:induction false} RoomTold(schedule: seq<Action>, path: string, total: nat)
    ensures
      var r := After(Room({}, map[], 0), schedule, path, total);
      && r.sent == SentBy(schedule, total) && r.clients <= r.visits.Keys
      && forall c :: c in r.visits <==> Asks(schedule, c, path)
  {
    hide Joins, SentBy;
    if schedule == [] {
      assert SentBy([], total) == 0 by { NoneSent(total); }
    } else {
      var n := |schedule| - 1;
      RoomTold(schedule[..n], path, total);
      AfterOneMore(Room({}, map[], 0), schedule[..n], schedule[n], path, total);
      assert schedule == schedule[..n] + [schedule[n]];
      forall c
        ensures Asks(schedule, c, path) <==> Asks(schedule[..n], c, path) || Joins(schedule[n], c, path)
      {
        AsksMore(schedule, c, path);
      }
      OneAttends(After(Room({}, map[], 0), schedule[..n], path, total), schedule[n], path, total);
    }
  }

  lemma NoneSent(total: nat)
    ensures SentBy([], total) == 0
  {
  }

  lemma AsksMore(schedule: seq<Action>, c: ClientId, path: string)
    requires schedule != []
    ensures
      var n := |schedule| - 1;
      Asks(schedule, c, path) <==> Asks(schedule[..n], c, path) || Joins(schedule[n], c, path)
  {
    hide Joins;
    var n := |schedule| - 1;
    if Asks(schedule[..n], c, path) {
      var i :| 0 <= i < n && Joins(schedule[..n][i], c, path);
      assert Joins(schedule[i], c, path);
    }
    if i :| 0 <= i < |schedule| && Joins(schedule[i], c, path) {
      assert i < n ==> Joins(schedule[..n][i], c, path);
    }
  }

  lemma OneAttends(r: Room, a: Action, path: string, total: nat)
    requires r.clients <= r.visits.Keys
    ensures
      var s := Attend(r, a, path, total);
      && s.clients <= s.visits.Keys
      && forall c :: c in s.visits <==> c in r.visits || Joins(a, c, path)
  {
  }

  /** Once a client has joined, his visit starts with what was sent before and
      goes on until he leaves, whatever the others do. */
  lemma {:induction false} VisitTold(before: seq<Action>, during: seq<Action>, c: ClientId, path: string, total: nat)
    requires !Asks(before, c, path) && Leave(c) !in during
    ensures
      var r := After(Room({}, map[], 0), before + [Join(c, path)] + during, path, total);
      && c in r.clients && c in r.visits
      && r.visits[c] == Visit(SentBy(before, total), SentBy(before + [Join(c, path)] + during, total))
  {
    hide SentBy, Attend, After, Asks;
    var start := Room({}, map[], 0);
    var joined := before + [Join(c, path)];
    RoomTold(before, path, total);
    RoomTold(joined + during, path, total);
    if during == [] {
      assert joined + during == joined;
      AfterOneMore(start, before, Join(c, path), path, total);
      JoinedNow(After(start, before, path, total), c, path, total);
    } else {
      var n := |during| - 1;
      VisitTold(before, during[..n], c, path, total);
      RoomTold(joined + during[..n], path, total);
      AfterOneMore(start, joined + during[..n], during[n], path, total);
      assert joined + during == joined + during[..n] + [during[n]];
      StillThere(After(start, joined + during[..n], path, total), during[n], c, path, total);
    }
  }

  lemma JoinedNow(r: Room, c: ClientId, path: string, total: nat)
    requires c !in r.visits
    ensures
      var s := Attend(r, Join(c, path), path, total);
      c in s.clients && c in s.visits && s.visits[c] == Visit(r.sent, s.sent)
  {
  }

  lemma StillThere(r: Room, a: Action, c: ClientId, path: string, total: nat)
    requires c in r.clients && c in r.visits && a != Leave(c) && r.visits[c].leftAt == r.sent
    ensures
      var s := Attend(r, a, path, total);
      c in s.clients && c in s.visits && s.visits[c] == Visit(r.visits[c].joinedAt, s.sent)
  {
  }

  /** After he has left, his visit stays as it was. */
  lemma {:induction false} VisitOver(r: Room, later: seq<Action>, c: ClientId, path: string, total: nat)
    requires c in r.visits
    ensures
      var s := After(Attend(r, Leave(c), path, total), later, path, total);
      c !in s.clients && c in s.visits && s.visits[c] == r.visits[c]
  {
    if later != [] {
      VisitOver(r, later[..|later| - 1], c, path, total);
    }
  }
}
