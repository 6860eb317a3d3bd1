/** The running bot: the per-user `user_data` dictionaries and the global
    `tickets` dictionary, updated in place by the handlers. Each handler is
    proved to do exactly what its reference in `Handlers` describes. */
module Service {
  import opened Optional
  import opened Model
  import opened Card
  import opened Handlers

  class Bot {
    var userData: map<UserId, Draft>
    var tickets: map<int, Ticket>

    /** The table keys are 1..n; they start that way and every handler
        keeps them so. */
    ghost predicate Valid()
      reads this
    {
      KeysDense(tickets)
    }

    function Snapshot(): State
      reads this
    {
      State(userData, tickets)
    }

    /** The bot at start-up: `tickets = {}` and no user data yet. */
    constructor ()
      ensures Valid() && Snapshot() == Initial
    {
      userData := map[];
      tickets := map[];
    }

    function DraftFor(u: UserId): Draft
      reads this
    {
      DraftOf(Snapshot(), u)
    }

    method Start(u: UserId) returns (outs: seq<Output>)
      requires Valid()
      modifies this
      ensures Valid()
      ensures Effect(Snapshot(), outs, None) == OnStart(old(Snapshot()), u)
    {
      outs := [Reply(WelcomePrompt)];
      userData := userData[u := DraftFor(u).(step := Some(Name))];
    }

    method TextHandler(u: UserId, text: string) returns (outs: seq<Output>)
      requires Valid()
      modifies this
      ensures Valid()
      ensures Effect(Snapshot(), outs, None) == OnText(old(Snapshot()), u, text)
    {
      var step := DraftFor(u).step;
      if step == Some(Name) {
        userData := userData[u := DraftFor(u).(name := Some(text))];
        outs := [Reply(PlacePrompt)];
        userData := userData[u := DraftFor(u).(step := Some(Place))];
      } else if step == Some(Place) {
        userData := userData[u := DraftFor(u).(place := Some(text))];
        outs := [Reply(ProblemPrompt)];
        userData := userData[u := DraftFor(u).(step := Some(Problem))];
      } else if step == Some(Problem) {
        userData := userData[u := DraftFor(u).(problem := Some(text))];
        outs := [ReplyWithButtons(PhotoQuestion, PhotoChoice)];
      } else {
        outs := [Reply(NotUnderstood)];
      }
    }

    method PhotoHandler(u: UserId, fileIds: seq<string>) returns (outs: seq<Output>)
      requires Valid()
      modifies this
      ensures Valid()
      ensures Effect(Snapshot(), outs, None) == OnPhoto(old(Snapshot()), u, fileIds)
    {
      var step := DraftFor(u).step;
      if step == Some(WaitingPhoto) && |fileIds| > 0 {
        outs := SavePhotoAndCreate(u, fileIds[|fileIds| - 1]);
      } else {
        outs := [Reply(PhotoExpected)];
      }
    }

    /** The `try` block of `photo_handler`. */
    method SavePhotoAndCreate(u: UserId, fileId: string) returns (outs: seq<Output>)
      requires Valid()
      modifies this
      ensures Valid()
      ensures Effect(Snapshot(), outs, None) == Handlers.SavePhotoAndCreate(old(Snapshot()), u, fileId)
    {
      userData := userData[u := DraftFor(u).(photoId := Some(fileId))];
      var fault;
      outs, fault := CreateTicket(u, FromMessage);
      if fault.Some? {
        outs := outs + [Reply(PhotoErrorPrefix + FaultText(fault.value))];
      }
    }

    /** Any exception `create_ticket` raises here escapes the handler and
        is returned in `fault`. */
    method ButtonHandler(u: UserId, data: string) returns (outs: seq<Output>, fault: Option<Fault>)
      requires Valid()
      modifies this
      ensures Valid()
      ensures Effect(Snapshot(), outs, fault) == OnButton(old(Snapshot()), u, data)
    {
      outs := [AnswerCallback];
      fault := None;
      if data == AddPhoto {
        userData := userData[u := DraftFor(u).(step := Some(WaitingPhoto))];
        outs := outs + [EditMessage(SendPhotoPrompt)];
      } else if data == SkipPhoto {
        var created;
        created, fault := CreateTicket(u, FromCallback);
        outs := outs + created;
      }
    }

    method CreateTicket(u: UserId, origin: Origin) returns (outs: seq<Output>, fault: Option<Fault>)
      requires Valid()
      modifies this
      ensures Valid()
      ensures Effect(Snapshot(), outs, fault) == Handlers.CreateTicket(old(Snapshot()), u, origin)
    {
      var d := DraftFor(u);
      if d.name.None? {
        return [], Some(KeyError("name"));
      } else if d.place.None? {
        return [], Some(KeyError("place"));
      } else if d.problem.None? {
        return [], Some(KeyError("problem"));
      }
      var id := |tickets| + 1;
      tickets := tickets[id := Ticket(d.name.value, d.place.value, d.problem.value, d.photoId, NewStatus, u)];
      var t := tickets[id];
      outs := if HasPhoto(t) then [ChannelPhoto(t.photo.value, CardText(id, t), AuthorButton(t))]
              else [ChannelText(CardText(id, t), AuthorButton(t))];
      if origin == FromCallback {
        fault := Some(NoMessage);
        return;
      }
      outs := outs + [Reply(Confirmation(id))];
      fault := None;
      userData := userData[u := EmptyDraft];
    }

    /** Routes one update to its handler, as the handler registration does. */
    method Dispatch(upd: Update) returns (outs: seq<Output>, fault: Option<Fault>)
      requires Valid()
      modifies this
      ensures Valid()
      ensures Effect(Snapshot(), outs, fault) == Handle(old(Snapshot()), upd)
    {
      fault := None;
      match upd.event
      case Start =>
        outs := Start(upd.sender);
      case Text(text) =>
        outs := TextHandler(upd.sender, text);
      case Photo(fileIds) =>
        outs := PhotoHandler(upd.sender, fileIds);
      case Button(data) =>
        outs, fault := ButtonHandler(upd.sender, data);
    }
  }
}
