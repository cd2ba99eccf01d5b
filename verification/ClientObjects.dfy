/** The client object: what its read handlers and its send queue update in place. */
module ClientObjects {
  import opened Basics
  import opened Messages
  import opened MsgFactory
  import Model = ChatClient
  import Queues = SendQueue

  class Client {
    var channelsHistory: map<Id, seq<Text>>
    var clientId: Id
    var login: Bytes
    var msgToServer: seq<Bytes>
    ghost var waiting: Model.Waiting
    ghost var out: Queues.Queue

    ghost function View(): Model.Client
      reads this
    {
      Model.Client(channelsHistory, clientId, waiting)
    }

    ghost predicate Valid()
      reads this
    {
      out.pending == msgToServer && Queues.Valid(out)
    }

    /** A connected client whose login request has been written. */
    constructor (login: Bytes)
      ensures Valid() && View() == Model.FRESH && this.login == login && out == Queues.EMPTY
    {
      channelsHistory, clientId, msgToServer := map[], 0, [];
      this.login := login;
      waiting, out := Model.ForHeader, Queues.EMPTY;
    }

    /** `do_read_pb_header` and `async_read_pb_msg`. */
    method DoReadPbHeader(error: bool, bytes: Bytes)
      requires waiting.ForHeader?
      modifies this`waiting
      ensures View() == if error then Model.Close(old(View())) else Model.OnHeader(old(View()), bytes)
    {
      hide DecodeHeader;
      if error {
        waiting := Model.Closed;
        return;
      }
      var parse := DecodeHeader(bytes);
      if !parse.ok {
        waiting := Model.Idle;
        return;
      }
      var command := CommandOf(parse.value);
      if || command == AUTORISATION_RESPONSE || command == REGISTRATION_RESPONSE
         || command == ECHO_RESPONSE || command == JOIN_ROOM_RESPONSE
      {
        waiting := Model.ForBody(parse.value);
      } else {
        waiting := Model.Idle;
      }
    }

    method DoReadInputResponse(error: bool, h: Header, bytes: Bytes)
      requires waiting == Model.ForBody(h) && CommandOf(h) == AUTORISATION_RESPONSE
      modifies this`waiting, this`clientId
      ensures View() == if error then Model.Close(old(View())) else Model.OnBody(old(View()), h, bytes)
    {
      hide DecodeResponse;
      if error {
        waiting := Model.Closed;
        return;
      }
      var parse := DecodeResponse(bytes);
      if !parse.ok {
        waiting := Model.Closed;
        return;
      }
      if parse.value.InputResponse? {
        if parse.value.status == STATUS_OK {
          clientId := parse.value.clientId;
          waiting := Model.ForHeader;
        } else {
          waiting := Model.Closed;
        }
      } else {
        waiting := Model.Idle;
      }
    }

    /** The id is taken from the input response that a registration response does not hold. */
    method DoReadRegResponse(error: bool, h: Header, bytes: Bytes)
      requires waiting == Model.ForBody(h) && CommandOf(h) == REGISTRATION_RESPONSE
      modifies this`waiting, this`clientId
      ensures View() == if error then Model.Close(old(View())) else Model.OnBody(old(View()), h, bytes)
    {
      hide DecodeResponse;
      if error {
        waiting := Model.Closed;
        return;
      }
      var parse := DecodeResponse(bytes);
      if !parse.ok {
        waiting := Model.Closed;
        return;
      }
      if parse.value.RegResponse? {
        if parse.value.status == STATUS_OK {
          clientId := 0;
          waiting := Model.ForHeader;
        } else {
          waiting := Model.Closed;
        }
      } else {
        waiting := Model.Idle;
      }
    }

    method DoReadJoinRoomResponse(error: bool, h: Header, bytes: Bytes)
      requires waiting == Model.ForBody(h) && CommandOf(h) == JOIN_ROOM_RESPONSE
      modifies this`waiting, this`channelsHistory
      ensures View() == if error then Model.Close(old(View())) else Model.OnBody(old(View()), h, bytes)
    {
      hide DecodeResponse;
      if error {
        waiting := Model.Closed;
        return;
      }
      var parse := DecodeResponse(bytes);
      if !parse.ok {
        waiting := Model.Closed;
        return;
      }
      if parse.value.JoinRoomResponse? {
        if parse.value.status == STATUS_OK {
          var room := parse.value.roomId;
          if room !in channelsHistory {
            channelsHistory := channelsHistory[room := []];
          }
          waiting := Model.ForHeader;
          assert channelsHistory == old(channelsHistory)[room := Model.HistoryOf(old(View()), room)];
        } else {
          waiting := Model.Closed;
        }
      } else {
        waiting := Model.Idle;
      }
    }

    method DoReadEchoResponse(error: bool, h: Header, bytes: Bytes)
      requires waiting == Model.ForBody(h) && CommandOf(h) == ECHO_RESPONSE
      modifies this`waiting, this`channelsHistory
      ensures View() == if error then Model.Close(old(View())) else Model.OnBody(old(View()), h, bytes)
    {
      hide DecodeResponse;
      if error {
        waiting := Model.Closed;
        return;
      }
      var m := Model.TextOf(DecodeResponse(bytes).value);
      if m.room !in channelsHistory {
        channelsHistory := channelsHistory[m.room := []];
      }
      channelsHistory := channelsHistory[m.room := channelsHistory[m.room] + [m]];
      waiting := Model.ForHeader;
      assert channelsHistory == old(channelsHistory)[m.room := Model.HistoryOf(old(View()), m.room) + [m]];
    }

    method StartSendMsgs()
      requires msgToServer != [] && out.pending == msgToServer
      modifies this`out
      ensures out == Queues.Start(old(out))
    {
      out := Queues.Start(out);
    }

    method AddMsgToSend(message: Bytes)
      requires Valid()
      modifies this`out, this`msgToServer
      ensures Valid() && out == Queues.Add(old(out), message)
    {
      Queues.AddKeepsValid(out, message);
      var processWrite := msgToServer != [];
      msgToServer := msgToServer + [message];
      out := out.(pending := msgToServer, added := out.added + [message]);
      if !processWrite {
        StartSendMsgs();
      }
    }

    /** The completion handler of a write to the server; a failure closes the connection. */
    method WriteCompleted(ok: bool)
      requires Valid() && out.inFlight > 0
      modifies this`out, this`msgToServer, this`waiting
      ensures Valid() && out == Queues.Complete(old(out), ok)
      ensures waiting == if ok then old(waiting) else Model.Closed
    {
      Queues.CompleteKeepsValid(out, ok);
      if ok {
        out := out.(inFlight := out.inFlight - 1, pending := out.pending[1..], written := out.written + [out.pending[0]]);
        msgToServer := msgToServer[1..];
        if msgToServer != [] {
          StartSendMsgs();
        }
      } else {
        out := out.(inFlight := out.inFlight - 1, failed := true);
        waiting := Model.Closed;
      }
    }

    /** A request is framed and queued (`change_room`, `send_msg_to_server`). */
    method SendRequest(r: Request)
      requires Valid() && !r.NoRequest?
      modifies this`out, this`msgToServer
      ensures Valid() && out == Queues.Add(old(out), RequestBytes(r))
    {
      hide EncodeRequest, RequestSize, RawFrame, RequestBytes, Queues.Valid, Queues.Add;
      FittingRequest(r);
      var buffer := SerializeRequest(CreateHeader(RequestCommand(r), 0), r);
      AddMsgToSend(buffer[..]);
    }

    method ChangeRoom(room: Id)
      requires Valid()
      modifies this`out, this`msgToServer
      ensures Requestable(JoinRoomRequest(room))
      ensures Valid() && out == Queues.Add(old(out), RequestFrame(JoinRoomRequest(room)))
    {
      JoinRequestFits(room);
      SendRequest(JoinRoomRequest(room));
    }

    method SendMsgToServer(text: Bytes, room: Id)
      requires Valid()
      modifies this`out, this`msgToServer
      ensures Valid() && out == Queues.Add(old(out), RequestBytes(TextRequest(login, room, text)))
    {
      SendRequest(TextRequest(login, room, text));
    }
  }

  /** What the client writes for a request: its frame, with a zero body if protobuf refuses it. */
  function RequestBytes(r: Request): Bytes
    requires !r.NoRequest?
  {
    if Requestable(r) then RequestFrame(r)
    else RawFrame(CreateHeader(RequestCommand(r), 0), RequestSize(r), EncodeRequest(r))
  }

  lemma FittingRequest(r: Request)
    requires !r.NoRequest?
    ensures RequestBytes(r) == RawFrame(CreateHeader(RequestCommand(r), 0), RequestSize(r), EncodeRequest(r))
  {
    hide EncodeRequest, RequestSize, RawFrame, Frame, DecodeRequest;
    if Requestable(r) {
      RequestRoundTrip(r);
      RawIsFrame(RequestCommand(r), EncodeRequest(r));
    }
  }
}
