/** The probe's exchange of requests and replies over one WebSocket connection. */
module Probe {
  import opened Bytes
  import opened Json
  import opened Streams
  import opened WebSocket

  // ----- What ids and sessions the probe sees in a message

  /** A number as the probe's language compares it: booleans count as 0 and 1. */
  function AsNumber(value: Value): Option<real> {
    match value
    case Bool(b) => Some(if b then 1.0 else 0.0)
    case Int(n) => Some(n as real)
    case Float(r) => Some(r)
    case _ => None
  }

  predicate IdsEqual(left: Value, right: Value) {
    if AsNumber(left).Some? || AsNumber(right).Some? then AsNumber(left) == AsNumber(right)
    else if left.Arr? && right.Arr? then
      |left.items| == |right.items|
      && forall i :: 0 <= i < |left.items| ==> IdsEqual(left.items[i], right.items[i])
    else if left.Obj? && right.Obj? then
      left.fields.Keys == right.fields.Keys
      && forall key :: key in left.fields ==> key in right.fields && IdsEqual(left.fields[key], right.fields[key])
    else left == right
  }

  predicate Replies(obj: Object, id: Value) {
    Id(obj).Some? && IdsEqual(Id(obj).value, id)
  }

  /** A non-empty `sessionId` under the parameters, else under the result. */
  function SessionFrom(obj: Object): Option<string> {
    var inParams, inResult := SessionUnder(obj, "params"), SessionUnder(obj, "result");
    if inParams.Some? && inParams.value != "" then inParams
    else if inResult.Some? && inResult.value != "" then inResult
    else None
  }

  /** Ids of the kinds JSON-RPC allows, as the probe compares them: a text only with itself, and a number with any
      that has its value, booleans among them. */
  lemma IdsEqualIff(n: int, name: string, id: Value)
    ensures IdsEqual(id, Str(name)) <==> id == Str(name)
    ensures IdsEqual(id, Null) <==> id == Null
    ensures IdsEqual(id, Int(n)) <==>
              id == Int(n) || id == Float(n as real) || (n == 0 && id == Bool(false)) || (n == 1 && id == Bool(true))
  {
  }

  /** The session of a message, by its fields: a non-empty one under the parameters before one under the result. */
  lemma SessionFromIff(obj: Object, session: string)
    ensures SessionFrom(obj) == Some(session) <==>
              && session != ""
              && (NamesUnder(obj, "params", session)
                  || (NamesUnder(obj, "result", session) && forall other :: NamesUnder(obj, "params", other) ==> other == ""))
  {
    if SessionUnder(obj, "params").Some? {
      assert NamesUnder(obj, "params", SessionUnder(obj, "params").value);
    }
  }

  // ----- Messages on the two directions of the connection

  datatype Item = Item(opcode: Byte, payload: Bytes)

  lemma ReceiveConsumes(bytes: Bytes)
    ensures Receive(bytes).Message? ==> |Receive(bytes).rest| < |bytes|
  {
  }

  /** All the whole messages in a stream of bytes. */
  function Messages(bytes: Bytes): seq<Item>
    decreases |bytes|
  {
    var parse := Receive(bytes);
    if parse.Short? then [] else
      ReceiveConsumes(bytes);
      [Item(parse.opcode, parse.payload)] + Messages(parse.rest)
  }

  /** Whoever receives these bytes gets exactly these messages, and then whatever follows. */
  ghost predicate Says(bytes: Bytes, items: seq<Item>) {
    forall tail :: Messages(bytes + tail) == items + Messages(tail)
  }

  lemma SaysNothing()
    ensures Says([], [])
  {
    forall tail: Bytes ensures Messages([] + tail) == [] + Messages(tail) {
      assert [] + tail == tail;
    }
  }

  lemma NothingRead()
    ensures Texts([]) == [] && Pongs([]) == [] && Says([], Pongs([]))
  {
    SaysNothing();
  }

  lemma SaysMore(bytes: Bytes, items: seq<Item>, more: Bytes, others: seq<Item>)
    requires Says(bytes, items) && Says(more, others)
    ensures Says(bytes + more, items + others)
  {
    hide Messages;
    forall tail ensures Messages(bytes + more + tail) == items + others + Messages(tail) {
      assert bytes + more + tail == bytes + (more + tail);
      assert items + (others + Messages(tail)) == items + others + Messages(tail);
    }
  }

  lemma SaysOne(opcode: Byte, mask: Bytes, payload: Bytes)
    requires |mask| == 4 && opcode < 16 && |payload| < LONGEST
    ensures Says(Frame(0x80 | opcode, mask, payload), [Item(opcode, payload)])
  {
    var bytes := Frame(0x80 | opcode, mask, payload);
    forall tail ensures Messages(bytes + tail) == [Item(opcode, payload)] + Messages(tail) {
      RoundTrip(0x80 | opcode, mask, payload, tail);
      OpcodeRoundTrip(opcode);
    }
  }

  function Texts(items: seq<Item>): seq<Bytes> {
    if items == [] then [] else
      var front, last := items[..|items| - 1], items[|items| - 1];
      if last.opcode == 0x1 then Texts(front) + [last.payload] else Texts(front)
  }

  /** What must be sent for what has been read: a pong with the same payload for each ping. */
  function Pongs(items: seq<Item>): seq<Item> {
    if items == [] then [] else
      var front, last := items[..|items| - 1], items[|items| - 1];
      if last.opcode == 0x9 then Pongs(front) + [Item(0xA, last.payload)] else Pongs(front)
  }

  lemma OneMore(items: seq<Item>, item: Item)
    ensures Texts(items + [item]) == if item.opcode == TEXT then Texts(items) + [item.payload] else Texts(items)
    ensures Pongs(items + [item]) == if item.opcode == PING then Pongs(items) + [Item(PONG, item.payload)] else Pongs(items)
  {
    assert (items + [item])[..|items|] == items;
  }

  lemma {:induction false} Together(items: seq<Item>, others: seq<Item>)
    ensures Texts(items + others) == Texts(items) + Texts(others)
    ensures Pongs(items + others) == Pongs(items) + Pongs(others)
  {
    hide Texts, Pongs, Says;
    if others == [] {
      NothingRead();
      assert items + others == items;
    } else {
      var front, last := others[..|others| - 1], others[|others| - 1];
      Together(items, front);
      OneMore(items + front, last);
      OneMore(front, last);
      assert others == front + [last];
      assert items + others == items + front + [last];
    }
  }

  /** The pongs among the messages. */
  function PongsIn(items: seq<Item>): seq<Item> {
    if items == [] then [] else
      var front, last := items[..|items| - 1], items[|items| - 1];
      if last.opcode == 0xA then PongsIn(front) + [last] else PongsIn(front)
  }

  lemma {:induction false} TogetherPongsIn(items: seq<Item>, others: seq<Item>)
    ensures PongsIn(items + others) == PongsIn(items) + PongsIn(others)
  {
    if others == [] {
      assert items + others == items;
    } else {
      var front, last := others[..|others| - 1], others[|others| - 1];
      TogetherPongsIn(items, front);
      assert (items + others)[..|items + others| - 1] == items + front;
    }
  }

  lemma {:induction false} OnlyPongs(items: seq<Item>)
    ensures PongsIn(Pongs(items)) == Pongs(items) && Texts(Pongs(items)) == []
  {
    if items != [] {
      var front, last := items[..|items| - 1], items[|items| - 1];
      OnlyPongs(front);
      if last.opcode == PING {
        assert Pongs(items)[..|Pongs(items)| - 1] == Pongs(front);
      }
    }
  }

  lemma OneMessage(bytes: Bytes)
    requires Receive(bytes).Message?
    ensures Messages(bytes) == [Item(Receive(bytes).opcode, Receive(bytes).payload)] + Messages(Receive(bytes).rest)
    ensures |Receive(bytes).rest| < |bytes|
  {
    ReceiveConsumes(bytes);
  }

  // ----- Sending

  method RandomMask() returns (mask: Bytes)
    ensures |mask| == 4
  {
    var a: Byte, b: Byte, c: Byte, d: Byte := *, *, *, *;
    mask := [a, b, c, d];
  }

  /** One message out; `bytes` is what the peer has seen of it. */
  method SendAll(conn: Conn, payload: Bytes, opcode: Byte) returns (ok: bool, ghost bytes: Bytes)
    requires opcode < 16
    modifies conn.out
    ensures conn.out.written == old(conn.out.written) + bytes
    ensures ok <==> |payload| < LONGEST && FrameSize(|payload|) <= old(conn.out.room)
    ensures ok ==> Says(bytes, [Item(opcode, payload)]) && conn.out.room == old(conn.out.room) - FrameSize(|payload|)
  {
    hide Says;
    var mask := RandomMask();
    var frame := MaskFrame(payload, opcode, mask);
    if frame.None? {
      return false, [];
    }
    SaysOne(opcode, mask, payload);
    ghost var before := |conn.out.written|;
    var wrote := conn.out.WriteAll(frame.value);
    ok, bytes := wrote.Written?, conn.out.written[before..];
  }

  // ----- Receiving

  /** So far these messages have been read off the stream, and each ping among them has been answered. */
  ghost predicate Kept(stream: seq<Item>, read: seq<Item>, incoming: Bytes, sent: Bytes) {
    stream == read + Messages(incoming) && Says(sent, Pongs(read))
  }

  lemma NothingKept(incoming: Bytes)
    ensures Kept(Messages(incoming), [], incoming, []) && Texts([]) == []
  {
    hide Messages, Says;
    NothingRead();
  }

  lemma OneMoreKept(stream: seq<Item>, read: seq<Item>, incoming: Bytes, sent: Bytes)
    requires Kept(stream, read, incoming, sent) && Receive(incoming).Message?
    ensures var parse := Receive(incoming);
            var item := Item(parse.opcode, parse.payload);
            && |parse.rest| < |incoming|
            && Texts(read + [item]) == (if item.opcode == TEXT then Texts(read) + [item.payload] else Texts(read))
            && (item.opcode != PING ==> Kept(stream, read + [item], parse.rest, sent))
            && (item.opcode == PING ==> forall pong :: Says(pong, [Item(PONG, item.payload)]) ==>
                  Kept(stream, read + [item], parse.rest, sent + pong))
  {
    hide Receive, Messages, Says, Texts, Pongs;
    var parse := Receive(incoming);
    var item := Item(parse.opcode, parse.payload);
    OneMessage(incoming);
    OneMore(read, item);
    assert read + ([item] + Messages(parse.rest)) == read + [item] + Messages(parse.rest);
    forall pong | item.opcode == PING && Says(pong, [Item(PONG, item.payload)])
      ensures Kept(stream, read + [item], parse.rest, sent + pong)
    {
      SaysMore(sent, Pongs(read), pong, [Item(PONG, item.payload)]);
    }
  }

  /** The size of a masked frame with a payload of this length. */
  function FrameSize(n: nat): nat {
    6 + (if n < 126 then 0 else if n < 65536 then 2 else 8) + n
  }

  /** The room it takes to answer the pings among these messages. */
  function PongSize(items: seq<Item>): nat {
    if items == [] then 0
    else (if items[0].opcode == 0x9 then FrameSize(|items[0].payload|) else 0) + PongSize(items[1..])
  }

  datatype Heard = Heard(payload: Bytes, rest: seq<Item>, room: nat)

  /** The next text among the messages to come, if it can be got to: what is left of them then, and of the room
      for what is sent. */
  function Hear(items: seq<Item>, room: nat): (heard: Option<Heard>)
    ensures heard.Some? ==> |heard.value.rest| < |items|
  {
    if items == [] then None
    else if items[0].opcode == TEXT then Some(Heard(items[0].payload, items[1..], room))
    else if items[0].opcode == PONG then Hear(items[1..], room)
    else if items[0].opcode == PING && FrameSize(|items[0].payload|) <= room then
      Hear(items[1..], room - FrameSize(|items[0].payload|))
    else None
  }

  /** The first message but pings and pongs is a text, and it is this one. */
  ghost predicate TextAt(items: seq<Item>, k: nat) {
    && k < |items| && items[k].opcode == 0x1
    && forall i :: 0 <= i < k ==> items[i].opcode == 0x9 || items[i].opcode == 0xA
  }

  /** A text is got to exactly if only pings and pongs come before it and there is room to answer the pings. */
  lemma {:induction false} HearIff(items: seq<Item>, room: nat, k: nat)
    ensures TextAt(items, k) ==>
              Hear(items, room) == if PongSize(items[..k]) <= room
                                   then Some(Heard(items[k].payload, items[k + 1..], room - PongSize(items[..k]))) else None
    ensures Hear(items, room).Some? ==> exists j :: TextAt(items, j)
  {
    hide FrameSize;
    if items != [] && items[0].opcode == TEXT {
      assert TextAt(items, 0);
      assert items[..0] == [];
    } else if items != [] {
      var answered := if items[0].opcode == PING then FrameSize(|items[0].payload|) else 0;
      if answered <= room {
        HearIff(items[1..], room - answered, if k > 0 then k - 1 else 0);
        if Hear(items, room).Some? {
          var j: nat :| TextAt(items[1..], j);
          assert TextAt(items, j + 1);
        }
      }
      if TextAt(items, k) {
        assert k > 0 && TextAt(items[1..], k - 1);
        assert items[..k][1..] == items[1..][..k - 1];
      }
    }
  }

  lemma PayloadFits(bytes: Bytes)
    requires Receive(bytes).Message?
    ensures |Receive(bytes).payload| < LONGEST
  {
    var ext := ExtendedLength(bytes[1]);
    if ext > 0 {
      BigEndianOfNumber(bytes[2..2 + ext]);
      assert Power(2) == 65536 && Power(8) == LONGEST;
    }
  }

  lemma NoMessage(bytes: Bytes)
    requires Receive(bytes).Short?
    ensures Messages(bytes) == []
  {
  }

  lemma OneHeard(incoming: Bytes, room: nat)
    ensures var parse := Receive(incoming);
            Hear(Messages(incoming), room) ==
            if parse.Short? then None
            else if parse.opcode == 0x1 then Some(Heard(parse.payload, Messages(parse.rest), room))
            else if parse.opcode == 0xA then Hear(Messages(parse.rest), room)
            else if parse.opcode == 0x9 && FrameSize(|parse.payload|) <= room then
              Hear(Messages(parse.rest), room - FrameSize(|parse.payload|))
            else None
  {
    hide Receive, Messages, FrameSize;
    if Receive(incoming).Short? { NoMessage(incoming); } else { OneMessage(incoming); }
  }

  /** The next text message. Pings are answered on the way and pongs are passed over; a close or any
      other kind of message ends the connection. */
  method RecvText(conn: Conn) returns (text: Option<Bytes>, ghost read: seq<Item>, ghost sent: Bytes)
    modifies conn, conn.sock, conn.out
    ensures conn.out.written == old(conn.out.written) + sent
    ensures text.Some? ==>
              && Messages(old(conn.Incoming())) == read + Messages(conn.Incoming())
              && Texts(read) == [text.value]
              && Says(sent, Pongs(read))
    ensures Hear(Messages(old(conn.Incoming())), old(conn.out.room))
            == if text.Some? then Some(Heard(text.value, Messages(conn.Incoming()), conn.out.room)) else None
  {
    hide Says, Messages, Receive, Texts, Pongs, Hear, FrameSize;
    ghost var stream := Messages(conn.Incoming());
    read, sent := [], [];
    NothingKept(conn.Incoming());
    while true
      invariant Kept(stream, read, conn.Incoming(), sent) && Texts(read) == []
      invariant conn.out.written == old(conn.out.written) + sent
      invariant Hear(stream, old(conn.out.room)) == Hear(Messages(conn.Incoming()), conn.out.room)
      decreases |conn.Incoming()|
    {
      ghost var before := conn.Incoming();
      OneHeard(before, conn.out.room);
      var received := RecvMessage(conn);
      if received.Lost? || received.opcode == CLOSE {
        return None, read, sent;
      }
      OneMoreKept(stream, read, before, sent);
      PayloadFits(before);
      read := read + [Item(received.opcode, received.payload)];
      if received.opcode == PING {
        var ok;
        ghost var pong;
        ok, pong := SendAll(conn, received.payload, PONG);
        sent := sent + pong;
        if !ok {
          return None, read, sent;
        }
      } else if received.opcode == TEXT {
        return Some(received.payload), read, sent;
      } else if received.opcode != PONG {
        return None, read, sent;
      }
    }
  }

  // ----- Replies and notes

  /** Each text is the next reply or the next note, and nothing else is. */
  ghost predicate Interleaves(texts: seq<Bytes>, replies: seq<Bytes>, notes: seq<Bytes>)
    decreases |texts|
  {
    if texts == [] then replies == [] && notes == [] else
      var front, last := texts[..|texts| - 1], texts[|texts| - 1];
      || (replies != [] && replies[|replies| - 1] == last && Interleaves(front, replies[..|replies| - 1], notes))
      || (notes != [] && notes[|notes| - 1] == last && Interleaves(front, replies, notes[..|notes| - 1]))
  }

  lemma ReplyTaken(texts: seq<Bytes>, replies: seq<Bytes>, notes: seq<Bytes>, text: Bytes)
    requires Interleaves(texts, replies, notes)
    ensures Interleaves(texts + [text], replies + [text], notes)
  {
    assert (texts + [text])[..|texts|] == texts && (replies + [text])[..|replies|] == replies;
  }

  lemma {:induction false} NotesTaken(texts: seq<Bytes>, replies: seq<Bytes>, notes: seq<Bytes>, more: seq<Bytes>)
    requires Interleaves(texts, replies, notes)
    ensures Interleaves(texts + more, replies, notes + more)
    decreases |more|
  {
    if more == [] {
      assert texts + more == texts && notes + more == notes;
    } else {
      var front, last := more[..|more| - 1], more[|more| - 1];
      NotesTaken(texts, replies, notes, front);
      assert (texts + more)[..|texts + more| - 1] == texts + front;
      assert (notes + more)[..|notes + more| - 1] == notes + front;
    }
  }

  datatype Awaited = Awaited(reply: Object, notes: seq<Bytes>, rest: seq<Item>, room: nat)

  /** The reply to `id` among the messages to come, if it can be got to, with the texts before it added to the
      notes. */
  function Await(items: seq<Item>, room: nat, parse: Bytes -> Option<Object>, id: Value, notes: seq<Bytes>)
    : (awaited: Option<Awaited>)
    ensures awaited.Some? ==> |awaited.value.rest| < |items|
    decreases |items|
  {
    var heard := Hear(items, room);
    if heard.None? then None else
      var obj := parse(heard.value.payload);
      if obj.None? then None
      else if Replies(obj.value, id) then Some(Awaited(obj.value, notes, heard.value.rest, heard.value.room))
      else Await(heard.value.rest, heard.value.room, parse, id, notes + [heard.value.payload])
  }

  /** The object a message is, if it is a text that parses to one. */
  function ObjectAt(item: Item, parse: Bytes -> Option<Object>): Option<Object> {
    if item.opcode == 0x1 then parse(item.payload) else None
  }

  /** This message is the first object with this id, and everything before it is a ping, a pong or an object. */
  ghost predicate ReplyAt(items: seq<Item>, parse: Bytes -> Option<Object>, id: Value, m: nat) {
    && m < |items| && ObjectAt(items[m], parse).Some? && Replies(ObjectAt(items[m], parse).value, id)
    && forall i :: 0 <= i < m ==>
         || items[i].opcode == 0x9 || items[i].opcode == 0xA
         || (ObjectAt(items[i], parse).Some? && !Replies(ObjectAt(items[i], parse).value, id))
  }

  lemma {:induction false} FirstText(items: seq<Item>, parse: Bytes -> Option<Object>, id: Value, m: nat) returns (k: nat)
    requires ReplyAt(items, parse, id, m)
    ensures k <= m && TextAt(items, k)
  {
    hide Replies;
    k := 0;
    while items[k].opcode != 0x1
      invariant k <= m && forall i :: 0 <= i < k ==> items[i].opcode == 0x9 || items[i].opcode == 0xA
      decreases m - k
    {
      k := k + 1;
    }
  }

  lemma {:induction false} PongSizes(items: seq<Item>, others: seq<Item>)
    ensures PongSize(items + others) == PongSize(items) + PongSize(others)
  {
    hide FrameSize;
    if items == [] {
      assert items + others == others;
    } else {
      PongSizes(items[1..], others);
      assert (items + others)[1..] == items[1..] + others;
    }
  }

  lemma PassedOver(items: seq<Item>, k: nat, m: nat)
    requires TextAt(items, k) && k < m <= |items|
    ensures PongSize(items[..m]) == PongSize(items[..k]) + PongSize(items[k + 1..][..m - k - 1])
    ensures Texts(items[..m]) == [items[k].payload] + Texts(items[k + 1..][..m - k - 1])
    ensures Texts(items[..k]) == []
  {
    hide PongSize, Texts;
    var after := items[k + 1..][..m - k - 1];
    NoTexts(items[..k]);
    OneMore([], items[k]);
    NothingRead();
    assert [] + [items[k]] == [items[k]];
    Together(items[..k], [items[k]] + after);
    Together([items[k]], after);
    PongSizes(items[..k], [items[k]] + after);
    PongSizes([items[k]], after);
    NoPongs(items[k]);
    assert items[..m] == items[..k] + ([items[k]] + after);
  }

  lemma NoPongs(item: Item)
    requires item.opcode == 0x1
    ensures PongSize([item]) == 0
  {
  }

  lemma {:induction false} NoTexts(items: seq<Item>)
    requires forall i :: 0 <= i < |items| ==> items[i].opcode != 0x1
    ensures Texts(items) == []
  {
    if items != [] { NoTexts(items[..|items| - 1]); }
  }

  /** The reply is got to exactly if there is room to answer the pings before it, and the notes are then exactly the
      texts before it. */
  lemma {:induction false} AwaitIff(items: seq<Item>, room: nat, parse: Bytes -> Option<Object>, id: Value,
                                    notes: seq<Bytes>, m: nat)
    requires ReplyAt(items, parse, id, m)
    ensures Await(items, room, parse, id, notes)
            == if PongSize(items[..m]) > room then None
               else Some(Awaited(ObjectAt(items[m], parse).value, notes + Texts(items[..m]), items[m + 1..],
                                 room - PongSize(items[..m])))
    decreases |items|
  {
    hide Hear, PongSize, Texts, Replies;
    var k := FirstText(items, parse, id, m);
    HearIff(items, room, k);
    if k == m {
      NoTexts(items[..m]);
      assert notes + [] == notes;
    } else {
      PassedOver(items, k, m);
      var rest := items[k + 1..];
      assert rest[m - k - 1] == items[m] && rest[m - k..] == items[m + 1..];
      assert ReplyAt(rest, parse, id, m - k - 1);
      if PongSize(items[..k]) <= room {
        AwaitIff(rest, room - PongSize(items[..k]), parse, id, notes + [items[k].payload], m - k - 1);
        assert notes + [items[k].payload] + Texts(rest[..m - k - 1]) == notes + ([items[k].payload] + Texts(rest[..m - k - 1]));
      }
    }
  }

  /** No reply is got to where there is none. */
  lemma {:induction false} AwaitFinds(items: seq<Item>, room: nat, parse: Bytes -> Option<Object>, id: Value, notes: seq<Bytes>)
    requires Await(items, room, parse, id, notes).Some?
    ensures exists m :: ReplyAt(items, parse, id, m)
    decreases |items|
  {
    hide Hear, Replies;
    var heard := Hear(items, room).value;
    HearIff(items, room, 0);
    var k: nat :| TextAt(items, k);
    HearIff(items, room, k);
    assert ObjectAt(items[k], parse) == parse(heard.payload);
    if Replies(parse(heard.payload).value, id) {
      assert ReplyAt(items, parse, id, k);
    } else {
      AwaitFinds(heard.rest, heard.room, parse, id, notes + [heard.payload]);
      var m: nat :| ReplyAt(items[k + 1..], parse, id, m);
      assert ReplyAt(items, parse, id, k + 1 + m);
    }
  }

  lemma OneAwaited(items: seq<Item>, room: nat, parse: Bytes -> Option<Object>, id: Value, notes: seq<Bytes>)
    ensures var heard := Hear(items, room);
            Await(items, room, parse, id, notes) ==
            if heard.None? || parse(heard.value.payload).None? then None
            else if Replies(parse(heard.value.payload).value, id) then
              Some(Awaited(parse(heard.value.payload).value, notes, heard.value.rest, heard.value.room))
            else Await(heard.value.rest, heard.value.room, parse, id, notes + [heard.value.payload])
  {
    hide Hear, Replies;
  }

  /** Reads until the reply to `id` has come; every other message before it becomes a note. A text that
      is not an object ends the exchange. */
  method WaitReply(conn: Conn, parse: Bytes -> Option<Object>, id: Value, notes: seq<Bytes>)
    returns (reply: Option<Object>, notes': seq<Bytes>, ghost text: Bytes, ghost read: seq<Item>, ghost sent: Bytes)
    modifies conn, conn.sock, conn.out
    ensures conn.out.written == old(conn.out.written) + sent
    ensures reply.Some? ==>
              && Messages(old(conn.Incoming())) == read + Messages(conn.Incoming())
              && Says(sent, Pongs(read))
              && parse(text) == reply && Replies(reply.value, id)
              && notes <= notes'
              && Texts(read) == notes'[|notes|..] + [text]
              && (forall k :: |notes| <= k < |notes'| ==> parse(notes'[k]).Some? && !Replies(parse(notes'[k]).value, id))
    ensures Await(Messages(old(conn.Incoming())), old(conn.out.room), parse, id, notes)
            == if reply.Some? then Some(Awaited(reply.value, notes', Messages(conn.Incoming()), conn.out.room)) else None
  {
    hide Says, Messages, Texts, Pongs, Replies, Hear, Await;
    notes', text, read, sent := notes, [], [], [];
    NothingRead();
    while true
      invariant Messages(old(conn.Incoming())) == read + Messages(conn.Incoming())
      invariant notes <= notes' && Texts(read) == notes'[|notes|..]
      invariant forall k :: |notes| <= k < |notes'| ==> parse(notes'[k]).Some? && !Replies(parse(notes'[k]).value, id)
      invariant conn.out.written == old(conn.out.written) + sent
      invariant Says(sent, Pongs(read))
      invariant Await(Messages(old(conn.Incoming())), old(conn.out.room), parse, id, notes)
                == Await(Messages(conn.Incoming()), conn.out.room, parse, id, notes')
      decreases |Messages(conn.Incoming())|
    {
      ghost var earlier := Pongs(read);
      var received;
      ghost var more, ponged;
      OneAwaited(Messages(conn.Incoming()), conn.out.room, parse, id, notes');
      received, more, ponged := RecvText(conn);
      ghost var said := sent;
      sent := sent + ponged;
      if received.None? {
        return None, notes', text, read, sent;
      }
      Together(read, more);
      SaysMore(said, earlier, ponged, Pongs(more));
      assert read + more + Messages(conn.Incoming()) == read + (more + Messages(conn.Incoming()));
      assert more != [] by { NothingRead(); }
      read := read + more;
      var obj := parse(received.value);
      if obj.None? {
        return None, notes', text, read, sent;
      }
      if Replies(obj.value, id) {
        return obj, notes', received.value, read, sent;
      }
      notes' := notes' + [received.value];
    }
  }

  // ----- The exchange

  /** What an exchange has asked and what has come of it. */
  datatype Account = Account(
    asked: seq<Bytes>, ids: seq<Value>, replies: seq<Object>, notes: seq<Bytes>,
    texts: seq<Bytes>, read: seq<Item>, said: seq<Item>)

  /** One reply per request, in the order of the requests and under their ids; the texts read are the
      replies and the notes, interleaved; what was said is the requests and a pong for each ping. */
  ghost predicate Settled(a: Account, parse: Bytes -> Option<Object>) {
    && |a.asked| == |a.ids| == |a.replies| == |a.texts|
    && (forall k :: 0 <= k < |a.replies| ==> parse(a.texts[k]) == Some(a.replies[k]) && Replies(a.replies[k], a.ids[k]))
    && Interleaves(Texts(a.read), a.texts, a.notes)
    && Texts(a.said) == a.asked
    && PongsIn(a.said) == Pongs(a.read)
  }

  lemma NothingAsked(parse: Bytes -> Option<Object>)
    ensures Settled(Account([], [], [], [], [], [], []), parse)
  {
  }

  lemma MoreRead(read: seq<Item>, texts: seq<Bytes>, notes: seq<Bytes>, notes': seq<Bytes>, text: Bytes, more: seq<Item>)
    requires Interleaves(Texts(read), texts, notes)
    requires notes <= notes' && Texts(more) == notes'[|notes|..] + [text]
    ensures Interleaves(Texts(read + more), texts + [text], notes')
  {
    hide Pongs, Interleaves, Texts;
    var passed := notes'[|notes|..];
    Together(read, more);
    NotesTaken(Texts(read), texts, notes, passed);
    assert notes + passed == notes';
    ReplyTaken(Texts(read) + passed, texts, notes', text);
    assert Texts(read + more) == Texts(read) + passed + [text];
  }

  lemma MoreSaid(said: seq<Item>, raw: Bytes, more: seq<Item>)
    ensures Texts(said + [Item(TEXT, raw)] + Pongs(more)) == Texts(said) + [raw]
    ensures PongsIn(said + [Item(TEXT, raw)] + Pongs(more)) == PongsIn(said) + Pongs(more)
  {
    hide Pongs, Texts;
    OneMore(said, Item(TEXT, raw));
    OnlyPongs(more);
    Together(said + [Item(TEXT, raw)], Pongs(more));
    TogetherPongsIn(said + [Item(TEXT, raw)], Pongs(more));
    assert (said + [Item(TEXT, raw)])[..|said|] == said;
  }

  lemma OneMoreSettled(a: Account, parse: Bytes -> Option<Object>, raw: Bytes, id: Value, reply: Object,
                       notes': seq<Bytes>, text: Bytes, more: seq<Item>)
    requires Settled(a, parse) && parse(text) == Some(reply) && Replies(reply, id)
    requires a.notes <= notes' && Texts(more) == notes'[|a.notes|..] + [text]
    ensures Settled(Account(a.asked + [raw], a.ids + [id], a.replies + [reply], notes', a.texts + [text],
                            a.read + more, a.said + [Item(TEXT, raw)] + Pongs(more)), parse)
  {
    hide Pongs, PongsIn, Interleaves, Replies, Texts;
    MoreRead(a.read, a.texts, a.notes, notes', text, more);
    MoreSaid(a.said, raw, more);
    Together(a.read, more);
  }

  /** The reply to one request, if the request can be sent and the reply be got to. */
  function AskIn(items: seq<Item>, room: nat, parse: Bytes -> Option<Object>, raw: Bytes, id: Value, notes: seq<Bytes>)
    : Option<Awaited>
  {
    if |raw| < LONGEST && FrameSize(|raw|) <= room then Await(items, room - FrameSize(|raw|), parse, id, notes) else None
  }

  /** Sends one request and waits for its reply. */
  method Ask(conn: Conn, parse: Bytes -> Option<Object>, raw: Bytes, id: Value, notes: seq<Bytes>,
             ghost a: Account, ghost stream: seq<Item>)
    returns (reply: Option<Object>, notes': seq<Bytes>, ghost a': Account, ghost sent: Bytes)
    requires Settled(a, parse) && a.notes == notes && stream == a.read + Messages(conn.Incoming())
    modifies conn, conn.sock, conn.out
    ensures conn.out.written == old(conn.out.written) + sent
    ensures reply.Some? ==>
              && Settled(a', parse) && stream == a'.read + Messages(conn.Incoming())
              && a'.asked == a.asked + [raw] && a'.ids == a.ids + [id]
              && a'.replies == a.replies + [reply.value] && a'.notes == notes'
              && (forall before :: Says(before, a.said) ==> Says(before + sent, a'.said))
    ensures AskIn(Messages(old(conn.Incoming())), old(conn.out.room), parse, raw, id, notes)
            == if reply.Some? then Some(Awaited(reply.value, notes', Messages(conn.Incoming()), conn.out.room)) else None
  {
    hide Says, Settled, Messages, Pongs, Replies, Await, FrameSize;
    notes', a' := notes, a;
    var ok;
    ok, sent := SendAll(conn, raw, TEXT);
    if !ok {
      return None, notes', a', sent;
    }
    ghost var text: Bytes, more: seq<Item>, ponged: Bytes;
    reply, notes', text, more, ponged := WaitReply(conn, parse, id, notes);
    ghost var request := sent;
    sent := sent + ponged;
    if reply.None? {
      return None, notes', a', sent;
    }
    OneMoreSettled(a, parse, raw, id, reply.value, notes', text, more);
    a' := Account(a.asked + [raw], a.ids + [id], a.replies + [reply.value], notes', a.texts + [text],
                  a.read + more, a.said + [Item(TEXT, raw)] + Pongs(more));
    assert a.read + (more + Messages(conn.Incoming())) == a.read + more + Messages(conn.Incoming());
    forall before | Says(before, a.said) ensures Says(before + sent, a'.said) {
      SaysMore(before, a.said, request, [Item(TEXT, raw)]);
      SaysMore(before + request, a.said + [Item(TEXT, raw)], ponged, Pongs(more));
      assert before + request + ponged == before + sent;
    }
  }

  /** The session of the first reply that names one. */
  function FirstSession(replies: seq<Object>): Option<string> {
    if replies == [] then None
    else if SessionFrom(replies[0]).Some? then SessionFrom(replies[0])
    else FirstSession(replies[1..])
  }

  /** The session an exchange loads is that of the first reply that names one. */
  lemma {:induction false} FirstSessionIff(replies: seq<Object>, session: string)
    ensures FirstSession(replies) == Some(session) <==>
              exists k :: 0 <= k < |replies| && SessionFrom(replies[k]) == Some(session)
                          && forall j :: 0 <= j < k ==> SessionFrom(replies[j]) == None
  {
    hide SessionFrom;
    if replies != [] && SessionFrom(replies[0]).None? {
      FirstSessionIff(replies[1..], session);
      if FirstSession(replies) == Some(session) {
        var k :| 0 <= k < |replies[1..]| && SessionFrom(replies[1..][k]) == Some(session)
                 && forall j :: 0 <= j < k ==> SessionFrom(replies[1..][j]) == None;
        assert SessionFrom(replies[k + 1]) == Some(session);
        forall j | 0 <= j < k + 1 ensures SessionFrom(replies[j]) == None {
          assert j > 0 ==> SessionFrom(replies[1..][j - 1]) == None;
        }
      }
      if k :| 0 <= k < |replies| && SessionFrom(replies[k]) == Some(session)
              && forall j :: 0 <= j < k ==> SessionFrom(replies[j]) == None
      {
        assert SessionFrom(replies[1..][k - 1]) == Some(session);
      }
    }
  }

  function LoadRequest(id: Value, session: string): Object {
    map["jsonrpc" := Str("2.0"), "id" := id, "method" := Str("session/load"),
        "params" := Obj(map["sessionId" := Str(session), "cwd" := Str("/tmp"), "mcpServers" := Arr([])])]
  }

  /** The requests of an exchange whose first replies are given: those asked for, then a load of the
      session they name, if a load is wanted and they name one. */
  function Requests(sends: seq<Bytes>, load: Option<Value>, first: seq<Object>, render: Object -> Bytes): seq<Bytes> {
    if load.Some? && FirstSession(first).Some? then
      sends + [render(map["jsonrpc" := Str("2.0"), "id" := load.value, "method" := Str("session/load"),
                          "params" := Obj(map["sessionId" := Str(FirstSession(first).value), "cwd" := Str("/tmp"),
                                              "mcpServers" := Arr([])])])]
    else sends
  }

  /** Every request was an object with this id. */
  ghost predicate IdsOf(sends: seq<Bytes>, ids: seq<Value>, parse: Bytes -> Option<Object>) {
    && |ids| == |sends|
    && forall k :: 0 <= k < |sends| ==> parse(sends[k]).Some? && Id(parse(sends[k]).value) == Some(ids[k])
  }

  datatype Asked = Asked(replies: seq<Object>, notes: seq<Bytes>, rest: seq<Item>, room: nat)

  /** The replies to some requests, added to those there are. */
  function AskEachIn(items: seq<Item>, room: nat, parse: Bytes -> Option<Object>, sends: seq<Bytes>,
                     notes: seq<Bytes>, replies: seq<Object>): Option<Asked>
    decreases |sends|
  {
    if sends == [] then Some(Asked(replies, notes, items, room)) else
      var request := parse(sends[0]);
      if request.None? || Id(request.value).None? then None else
        var one := AskIn(items, room, parse, sends[0], Id(request.value).value, notes);
        if one.None? then None else
          AskEachIn(one.value.rest, one.value.room, parse, sends[1..], one.value.notes, replies + [one.value.reply])
  }

  /** Every request has an id, can be sent, and finds its reply behind the reply to the one before it, with room to
      answer the pings on the way. */
  ghost predicate Answerable(items: seq<Item>, room: nat, parse: Bytes -> Option<Object>, sends: seq<Bytes>) {
    sends != [] ==>
      && parse(sends[0]).Some? && "id" in parse(sends[0]).value && |sends[0]| < LONGEST
      && exists m: nat ::
           && ReplyAt(items, parse, parse(sends[0]).value["id"], m)
           && var left := room - FrameSize(|sends[0]|) - PongSize(items[..m]);
              left >= 0 && Answerable(items[m + 1..], left, parse, sends[1..])
  }

  lemma SamePlace(items: seq<Item>, parse: Bytes -> Option<Object>, id: Value, m: nat, k: nat)
    requires ReplyAt(items, parse, id, m) && ReplyAt(items, parse, id, k)
    ensures m == k < |items|
  {
    hide Replies;
  }

  /** Requests get all their replies exactly if they are answerable. */
  lemma {:induction false} AskEachIff(items: seq<Item>, room: nat, parse: Bytes -> Option<Object>, sends: seq<Bytes>,
                                      notes: seq<Bytes>, replies: seq<Object>)
    ensures AskEachIn(items, room, parse, sends, notes, replies).Some? <==> Answerable(items, room, parse, sends)
    decreases |sends|
  {
    hide ReplyAt, Await, FrameSize, PongSize, ObjectAt, Texts;
    if sends != [] && parse(sends[0]).Some? && Id(parse(sends[0]).value).Some? {
      var id := Id(parse(sends[0]).value).value;
      var one := AskIn(items, room, parse, sends[0], id, notes);
      if one.Some? {
        AwaitFinds(items, room - FrameSize(|sends[0]|), parse, id, notes);
      }
      if m: nat :| ReplyAt(items, parse, id, m) && |sends[0]| < LONGEST && FrameSize(|sends[0]|) <= room {
        forall k: nat | ReplyAt(items, parse, id, k) ensures k == m < |items| { SamePlace(items, parse, id, m, k); }
        AwaitIff(items, room - FrameSize(|sends[0]|), parse, id, notes, m);
        if one.Some? {
          AskEachIff(items[m + 1..], one.value.room, parse, sends[1..], one.value.notes, replies + [one.value.reply]);
        }
      }
    }
  }

  lemma OneAskedMore(items: seq<Item>, room: nat, parse: Bytes -> Option<Object>, sends: seq<Bytes>,
                     notes: seq<Bytes>, replies: seq<Object>)
    requires sends != []
    ensures AskEachIn(items, room, parse, sends, notes, replies) ==
            var request := parse(sends[0]);
            if request.None? || Id(request.value).None? then None else
              var one := AskIn(items, room, parse, sends[0], Id(request.value).value, notes);
              if one.None? then None else
                AskEachIn(one.value.rest, one.value.room, parse, sends[1..], one.value.notes, replies + [one.value.reply])
  {
    hide AskIn;
  }

  lemma MoreIds(sends: seq<Bytes>, i: nat, ids: seq<Value>, parse: Bytes -> Option<Object>)
    requires i < |sends| && IdsOf(sends[..i], ids, parse)
    requires parse(sends[i]).Some? && Id(parse(sends[i]).value).Some?
    ensures IdsOf(sends[..i + 1], ids + [Id(parse(sends[i]).value).value], parse)
  {
    assert sends[..i + 1] == sends[..i] + [sends[i]];
  }

  lemma NoIds(parse: Bytes -> Option<Object>)
    ensures IdsOf([], [], parse)
  {
  }

  lemma NothingToAsk(items: seq<Item>, room: nat, parse: Bytes -> Option<Object>, notes: seq<Bytes>, replies: seq<Object>)
    ensures AskEachIn(items, room, parse, [], notes, replies) == Some(Asked(replies, notes, items, room))
  {
  }

  /** Request after request, each sent once the one before it has its reply. */
  method AskEach(conn: Conn, parse: Bytes -> Option<Object>, sends: seq<Bytes>)
    returns (replies: Option<seq<Object>>, notes: seq<Bytes>, ghost a: Account, ghost sent: Bytes)
    modifies conn, conn.sock, conn.out
    ensures conn.out.written == old(conn.out.written) + sent
    ensures replies.Some? ==>
              && Settled(a, parse) && Says(sent, a.said)
              && Messages(old(conn.Incoming())) == a.read + Messages(conn.Incoming())
              && a.replies == replies.value && a.notes == notes && a.asked == sends
              && |a.replies| == |sends| && IdsOf(sends, a.ids, parse)
    ensures AskEachIn(Messages(old(conn.Incoming())), old(conn.out.room), parse, sends, [], [])
            == if replies.Some? then Some(Asked(replies.value, notes, Messages(conn.Incoming()), conn.out.room)) else None
  {
    hide Says, Settled, Messages, AskIn, AskEachIn, IdsOf;
    ghost var stream := Messages(conn.Incoming());
    var got: seq<Object> := [];
    notes, a, sent := [], Account([], [], [], [], [], [], []), [];
    NothingAsked(parse);
    SaysNothing();
    NoIds(parse);
    for i := 0 to |sends|
      invariant conn.out.written == old(conn.out.written) + sent
      invariant Settled(a, parse) && Says(sent, a.said)
      invariant stream == a.read + Messages(conn.Incoming())
      invariant a.replies == got && a.notes == notes && a.asked == sends[..i]
      invariant |got| == i && IdsOf(sends[..i], a.ids, parse)
      invariant AskEachIn(stream, old(conn.out.room), parse, sends, [], [])
                == AskEachIn(Messages(conn.Incoming()), conn.out.room, parse, sends[i..], notes, got)
    {
      OneAskedMore(Messages(conn.Incoming()), conn.out.room, parse, sends[i..], notes, got);
      assert sends[i..][1..] == sends[i + 1..];
      var request := parse(sends[i]);
      if request.None? || Id(request.value).None? {
        return None, notes, a, sent;
      }
      MoreIds(sends, i, a.ids, parse);
      assert sends[..i + 1] == sends[..i] + [sends[i]];
      var reply;
      ghost var more;
      reply, notes, a, more := Ask(conn, parse, sends[i], Id(request.value).value, notes, a, stream);
      sent := sent + more;
      if reply.None? {
        return None, notes, a, sent;
      }
      got := got + [reply.value];
    }
    assert sends[..|sends|] == sends && sends[|sends|..] == [];
    NothingToAsk(Messages(conn.Incoming()), conn.out.room, parse, notes, got);
    replies := Some(got);
  }

  /** What an exchange returns. */
  function ExchangeIn(items: seq<Item>, room: nat, parse: Bytes -> Option<Object>, render: Object -> Bytes,
                      sends: seq<Bytes>, load: Option<Value>): Option<(seq<Object>, seq<Bytes>)>
  {
    var asked := AskEachIn(items, room, parse, sends, [], []);
    if asked.None? then None
    else if load.None? || FirstSession(asked.value.replies).None? then Some((asked.value.replies, asked.value.notes))
    else
      var raw := render(LoadRequest(load.value, FirstSession(asked.value.replies).value));
      var last := AskIn(asked.value.rest, asked.value.room, parse, raw, load.value, asked.value.notes);
      if last.None? then None else Some((asked.value.replies + [last.value.reply], last.value.notes))
  }

  /** The whole exchange. `None` is an exception: the connection failed, a request had no id, or some
      text was not an object. */
  method Exchange(conn: Conn, parse: Bytes -> Option<Object>, render: Object -> Bytes,
                  sends: seq<Bytes>, load: Option<Value>)
    returns (outcome: Option<(seq<Object>, seq<Bytes>)>, ghost a: Account, ghost sent: Bytes)
    modifies conn, conn.sock, conn.out
    ensures conn.out.written == old(conn.out.written) + sent
    ensures outcome.Some? ==>
              && Settled(a, parse) && Says(sent, a.said) && outcome.value == (a.replies, a.notes)
              && Messages(old(conn.Incoming())) == a.read + Messages(conn.Incoming())
              && |sends| <= |a.replies| && |sends| <= |a.ids|
              && a.asked == Requests(sends, load, a.replies[..|sends|], render)
              && IdsOf(sends, a.ids[..|sends|], parse)
              && (|sends| < |a.ids| ==> load == Some(a.ids[|sends|]))
    ensures outcome == ExchangeIn(Messages(old(conn.Incoming())), old(conn.out.room), parse, render, sends, load)
  {
    hide Says, Settled, Messages, FirstSession, IdsOf, AskIn, AskEachIn;
    ghost var stream := Messages(conn.Incoming());
    var replies: Option<seq<Object>>, notes: seq<Bytes>;
    replies, notes, a, sent := AskEach(conn, parse, sends);
    if replies.None? {
      return None, a, sent;
    }
    SettledCounts(a, parse);
    assert a.replies[..|sends|] == replies.value && a.ids[..|sends|] == a.ids;
    if load.None? || FirstSession(replies.value).None? {
      return Some((replies.value, notes)), a, sent;
    }
    var raw := render(LoadRequest(load.value, FirstSession(replies.value).value));
    var reply;
    ghost var first, more := a, [];
    reply, notes, a, more := Ask(conn, parse, raw, load.value, notes, a, stream);
    sent := sent + more;
    if reply.None? {
      return None, a, sent;
    }
    assert a.replies[..|sends|] == first.replies && a.ids[..|sends|] == first.ids;
    outcome := Some((replies.value + [reply.value], notes));
  }

  lemma SettledCounts(a: Account, parse: Bytes -> Option<Object>)
    requires Settled(a, parse)
    ensures |a.asked| == |a.ids| == |a.replies| == |a.texts|
  {
  }
}
